/**
  The self-contained installer file (`internal/installerbundle/bundle.go`): the
  executables one after the other, a manifest, and a footer that gives the
  manifest's length and digest.

  The manifest encoding, the digest, the executable check and the profile check
  are parameters (`Codec`); what is needed of them is `Faithful`.
*/
module InstallerBundle {
  import opened SparkTypes

  type Bytes = seq<int>

  const MAX_EXECUTABLE := 67108864
  const MAX_MANIFEST := 65536
  const FOOTER := 56
  const MAX_FILE := 3 * MAX_EXECUTABLE + MAX_MANIFEST + FOOTER
  const MAGIC: Bytes := [77, 79, 78, 73, 75, 45, 73, 78, 83, 84, 65, 76, 76, 45, 86, 49]

  datatype Piece = Piece(size: nat, digest: Bytes)

  const NO_PIECE := Piece(0, [])

  /** A one-machine enrollment; its contents matter only to the codec. */
  datatype Enrollment = Enrollment(text: string)

  datatype Manifest = Manifest(
    format: int,
    os: string,
    arch: string,
    build: string,
    flavor: string,
    mode: string,
    features: seq<string>,
    installer: Piece,
    worker: Piece,
    supervisor: Piece,
    enrollment: Option<Enrollment>)

  datatype Codec = Codec(
    encode: Manifest -> Bytes,
    decode: Bytes -> Option<Manifest>,
    digest: Bytes -> Bytes,
    executable: (Bytes, string) -> bool,
    acceptable: Enrollment -> bool)

  /** Decoding undoes encoding, nothing encodes to nothing, and a digest has 32 bytes. */
  ghost predicate Faithful(c: Codec) {
    && (forall m :: c.decode(c.encode(m)) == Some(m) && |c.encode(m)| > 0)
    && (forall b :: |c.digest(b)| == 32)
  }

  // ---------------------------------------------------------------- lengths as eight bytes

  function BigEndian(n: nat, width: nat): (b: Bytes)
    ensures |b| == width
  {
    if width == 0 then [] else BigEndian(n / 256, width - 1) + [n % 256]
  }

  function Value(b: Bytes): int {
    if b == [] then 0 else Value(b[..|b| - 1]) * 256 + b[|b| - 1]
  }

  function Power(width: nat): nat {
    if width == 0 then 1 else 256 * Power(width - 1)
  }

  lemma {:induction false} BigEndianRoundTrip(n: nat, width: nat)
    requires n < Power(width)
    ensures Value(BigEndian(n, width)) == n
    decreases width
  {
    if width > 0 {
      BigEndianRoundTrip(n / 256, width - 1);
      assert BigEndian(n, width)[..width - 1] == BigEndian(n / 256, width - 1);
    }
  }

  lemma LengthRoundTrip(n: nat)
    requires n <= MAX_FILE
    ensures Value(BigEndian(n, 8)) == n
  {
    assert Power(4) == 4294967296 by {
      assert Power(1) == 256 && Power(2) == 65536 && Power(3) == 16777216;
    }
    assert Power(8) == 256 * (256 * (256 * (256 * Power(4))));
    BigEndianRoundTrip(n, 8);
  }

  // ---------------------------------------------------------------- manifests

  predicate VariantOk(m: Manifest) {
    if m.format == 1 then m.flavor == "" && m.mode == "" && m.features == []
    else
      && m.format == 2 && m.flavor == "spark-light" && m.mode == "direct" && m.arch == "arm64"
      && m.supervisor == NO_PIECE && m.features == ["spark_telemetry_v1"]
  }

  predicate PlatformOk(m: Manifest) {
    m.os == "linux" && (m.arch == "amd64" || m.arch == "arm64") && 1 <= |m.build| <= 128
  }

  function Pieces(m: Manifest): seq<Piece> {
    if m.format == 1 then [m.installer, m.worker, m.supervisor] else [m.installer, m.worker]
  }

  function Footer(c: Codec, raw: Bytes): Bytes {
    MAGIC + BigEndian(|raw|, 8) + c.digest(raw)
  }

  predicate PieceOk(c: Codec, data: Bytes, p: Piece, arch: string) {
    64 <= p.size <= MAX_EXECUTABLE && |p.digest| == 32 && p.size == |data| && c.digest(data) == p.digest
        && c.executable(data, arch)
  }

  function Slice(b: Bytes, from: int, size: int): Bytes {
    if 0 <= from <= from + size <= |b| then b[from..from + size] else []
  }

  /** The pieces lie one after the other from `offset` on, each as the manifest says. */
  predicate PiecesOk(c: Codec, payload: Bytes, pieces: seq<Piece>, offset: nat, arch: string)
    decreases |pieces|
  {
    if pieces == [] then offset == |payload|
    else
      && offset + pieces[0].size <= |payload| && PieceOk(c, Slice(payload, offset, pieces[0].size), pieces[0], arch)
      && PiecesOk(c, payload, pieces[1..], offset + pieces[0].size, arch)
  }

  // ---------------------------------------------------------------- opening

  datatype Bundle = Bundle(file: Bytes, manifest: Manifest, payload: nat)

  function ManifestLength(file: Bytes): int
    requires |file| >= FOOTER
  {
    Value(file[|file| - FOOTER + 16..|file| - FOOTER + 24])
  }

  /** The bundle of a file whose manifest has `n` bytes, if digest, contents and pieces are as they should be. */
  function OpenedAt(c: Codec, file: Bytes, n: nat): Option<Bundle>
    requires n + FOOTER <= |file|
  {
    var payload := |file| - FOOTER - n;
    var raw := file[payload..payload + n];
    if c.digest(raw) != file[|file| - FOOTER + 24..] || c.decode(raw).None? then None
    else
      var m := c.decode(raw).value;
      if !PlatformOk(m) || !VariantOk(m) || !PiecesOk(c, file[..payload], Pieces(m), 0, m.arch) then None
      else if m.enrollment.Some? && !c.acceptable(m.enrollment.value) then None
      else Some(Bundle(file, m, payload))
  }

  /** The bundle a file holds, if it is accepted. */
  function Opened(c: Codec, file: Bytes): Option<Bundle> {
    if |file| < FOOTER || |file| > MAX_FILE || file[|file| - FOOTER..|file| - FOOTER + 16] != MAGIC then None
    else
      var n := ManifestLength(file);
      if n <= 0 || n > MAX_MANIFEST || n > |file| - FOOTER then None else OpenedAt(c, file, n)
  }

  /** The executables of a payload, cut by the manifest's sizes. */
  function Cut(payload: Bytes, pieces: seq<Piece>, offset: nat): seq<Bytes>
    decreases |pieces|
  {
    if pieces == [] then [] else [Slice(payload, offset, pieces[0].size)] + Cut(payload, pieces[1..],
        offset + pieces[0].size)
  }

  function Executables(b: Bundle): seq<Bytes>
    requires b.payload <= |b.file|
  {
    Cut(b.file[..b.payload], Pieces(b.manifest), 0)
  }

  function Concat(parts: seq<Bytes>): Bytes {
    if parts == [] then [] else parts[0] + Concat(parts[1..])
  }

  lemma {:induction false} PiecesAreThePayload(c: Codec, payload: Bytes, pieces: seq<Piece>, offset: nat, arch: string)
    requires PiecesOk(c, payload, pieces, offset, arch)
    ensures offset <= |payload| && Concat(Cut(payload, pieces, offset)) == payload[offset..]
    decreases |pieces|
  {
    if pieces == [] {
      assert payload[offset..] == [];
    } else {
      PiecesAreThePayload(c, payload, pieces[1..], offset + pieces[0].size, arch);
      assert payload[offset..] == payload[offset..offset + pieces[0].size] + payload[offset + pieces[0].size..];
      var rest := Cut(payload, pieces[1..], offset + pieces[0].size);
      assert ([Slice(payload, offset, pieces[0].size)] + rest)[1..] == rest;
    }
  }

  /** An accepted file is exactly its executables, its manifest and its footer, with nothing before, between or
      after. */
  lemma AcceptedIsExact(c: Codec, file: Bytes)
    requires Opened(c, file).Some?
    ensures var b := Opened(c, file).value;
            && b.file == file && b.payload <= |file| - FOOTER
            && var raw := file[b.payload..|file| - FOOTER];
               && file == Concat(Executables(b)) + raw + file[|file| - FOOTER..]
               && c.decode(raw) == Some(b.manifest) && |raw| == ManifestLength(file)
               && file[|file| - FOOTER..] == MAGIC + file[|file| - FOOTER + 16..|file| - FOOTER + 24] + c.digest(raw)
  {
    hide Opened, PiecesOk, Value, MAGIC;
    OpenedFacts(c, file);
    var b := Opened(c, file).value;
    PiecesAreThePayload(c, file[..b.payload], Pieces(b.manifest), 0, b.manifest.arch);
    assert file[..b.payload][0..] == file[..b.payload];
    ThreeWay(file, b.payload, |file| - FOOTER);
    var footer := file[|file| - FOOTER..];
    ThreeWay(footer, 16, 24);
    assert footer[..16] == file[|file| - FOOTER..|file| - FOOTER + 16]
        && footer[16..24] == file[|file| - FOOTER + 16..|file| - FOOTER + 24];
    assert footer[24..] == file[|file| - FOOTER + 24..];
  }

  lemma ThreeWay(b: Bytes, i: nat, j: nat)
    requires i <= j <= |b|
    ensures b == b[..i] + b[i..j] + b[j..]
  {
  }

  /** What the checks of an accepted file say, one by one. */
  lemma OpenedFacts(c: Codec, file: Bytes)
    requires Opened(c, file).Some?
    ensures FOOTER <= |file| <= MAX_FILE && file[|file| - FOOTER..|file| - FOOTER + 16] == MAGIC
    ensures var b, n := Opened(c, file).value, ManifestLength(file);
            && 0 < n <= MAX_MANIFEST && b.file == file && b.payload == |file| - FOOTER - n
            && PlatformOk(b.manifest) && VariantOk(b.manifest)
                && PiecesOk(c, file[..b.payload], Pieces(b.manifest), 0, b.manifest.arch)
            && (b.manifest.enrollment.Some? ==> c.acceptable(b.manifest.enrollment.value))
            && var raw := file[b.payload..|file| - FOOTER];
               c.digest(raw) == file[|file| - FOOTER + 24..] && c.decode(raw) == Some(b.manifest)
  {
    hide PiecesOk, Value, PlatformOk, VariantOk;
  }

  // ---------------------------------------------------------------- writing

  /** Payload, manifest, footer. */
  function Assembled(c: Codec, payload: Bytes, m: Manifest): Bytes {
    payload + c.encode(m) + Footer(c, c.encode(m))
  }

  lemma AssembledParts(c: Codec, payload: Bytes, m: Manifest)
    requires Faithful(c)
    ensures var file, raw := Assembled(c, payload, m), c.encode(m);
            && |file| == |payload| + |raw| + FOOTER && file[..|payload|] == payload
                && file[|payload|..|payload| + |raw|] == raw
            && file[|file| - FOOTER..|file| - FOOTER + 16] == MAGIC
                && file[|file| - FOOTER + 16..|file| - FOOTER + 24] == BigEndian(|raw|, 8)
            && file[|file| - FOOTER + 24..] == c.digest(raw)
  {
    var raw := c.encode(m);
    assert |c.digest(raw)| == 32;
    var file := Assembled(c, payload, m);
    var footer := Footer(c, raw);
    assert |footer| == FOOTER && file[|file| - FOOTER..] == footer;
    assert footer[..16] == MAGIC && footer[16..24] == BigEndian(|raw|, 8) && footer[24..] == c.digest(raw);
    assert file[|file| - FOOTER..|file| - FOOTER + 16] == footer[..16];
    assert file[|file| - FOOTER + 16..|file| - FOOTER + 24] == footer[16..24];
    assert file[|file| - FOOTER + 24..] == footer[24..];
  }

  /** What is assembled from valid pieces and a manifest of allowed size opens again as exactly that; an oversized
      manifest does not. */
  lemma AssembledOpens(c: Codec, payload: Bytes, m: Manifest)
    requires Faithful(c) && |payload| <= 3 * MAX_EXECUTABLE
    requires PlatformOk(m) && VariantOk(m) && PiecesOk(c, payload, Pieces(m), 0, m.arch)
        && (m.enrollment.Some? ==> c.acceptable(m.enrollment.value))
    ensures var file := Assembled(c, payload, m);
            Opened(c, file) == if |c.encode(m)| <= MAX_MANIFEST then Some(Bundle(file, m, |payload|)) else None
  {
    hide PiecesOk, PlatformOk, VariantOk, BigEndian, OpenedAt, Value, Assembled;
    var file, raw := Assembled(c, payload, m), c.encode(m);
    AssembledParts(c, payload, m);
    assert |raw| > 0;
    if |file| <= MAX_FILE {
      LengthRoundTrip(|raw|);
      assert ManifestLength(file) == |raw|;
      if |raw| <= MAX_MANIFEST {
        AssembledOpensAt(c, payload, m);
      }
    }
  }

  lemma AssembledOpensAt(c: Codec, payload: Bytes, m: Manifest)
    requires Faithful(c)
    requires PlatformOk(m) && VariantOk(m) && PiecesOk(c, payload, Pieces(m), 0, m.arch)
        && (m.enrollment.Some? ==> c.acceptable(m.enrollment.value))
    ensures var file := Assembled(c, payload, m);
            |c.encode(m)| + FOOTER <= |file| && OpenedAt(c, file, |c.encode(m)|) == Some(Bundle(file, m, |payload|))
  {
    hide PiecesOk, PlatformOk, VariantOk, BigEndian, Assembled;
    AssembledParts(c, payload, m);
    assert c.decode(c.encode(m)) == Some(m);
  }

  // ---------------------------------------------------------------- packing a template

  function PieceOf(c: Codec, data: Bytes): Piece {
    Piece(|data|, c.digest(data))
  }

  predicate Packable(c: Codec, data: Bytes, arch: string) {
    64 <= |data| <= MAX_EXECUTABLE && c.executable(data, arch)
  }

  function Filled(c: Codec, m: Manifest, installer: Bytes, worker: Bytes, supervisor: Bytes): Manifest {
    var filled := m.(installer := PieceOf(c, installer), worker := PieceOf(c, worker));
    if m.format == 1 then filled.(supervisor := PieceOf(c, supervisor)) else filled
  }

  /** The template, or nothing if a part, the variant or the platform is not allowed. */
  function Packed(c: Codec, installer: Bytes, worker: Bytes, supervisor: Bytes, m: Manifest): Option<Bytes> {
    if !VariantOk(m) || !Packable(c, installer, m.arch) || !Packable(c, worker, m.arch)
        || (m.format == 1 && !Packable(c, supervisor, m.arch)) then None
    else if (m.arch != "amd64" && m.arch != "arm64") || m.build == "" || |m.build| > 128 then None
    else Some(Assembled(c, installer + worker + supervisor, Filled(c, m, installer, worker, supervisor)))
  }

  function Template(arch: string, build: string): Manifest {
    Manifest(1, "linux", arch, build, "", "", [], NO_PIECE, NO_PIECE, NO_PIECE, None)
  }

  function SparkTemplate(arch: string, build: string): Manifest {
    Manifest(2, "linux", arch, build, "spark-light", "direct", ["spark_telemetry_v1"], NO_PIECE, NO_PIECE, NO_PIECE,
        None)
  }

  /** Packing three executables and opening the result gives exactly them back, without an enrollment, as long as the
      manifest is of allowed size. */
  lemma PackRoundTrip(c: Codec, installer: Bytes, worker: Bytes, supervisor: Bytes, arch: string, build: string)
    requires Faithful(c) && Packed(c, installer, worker, supervisor, Template(arch, build)).Some?
    ensures var file := Packed(c, installer, worker, supervisor, Template(arch, build)).value;
            var m := Filled(c, Template(arch, build), installer, worker, supervisor);
            && (Opened(c, file).Some? <==> |c.encode(m)| <= MAX_MANIFEST)
            && (Opened(c, file).Some? ==>
                  Executables(Opened(c, file).value) == [installer, worker, supervisor]
                      && Opened(c, file).value == Bundle(file, m, |installer| + |worker| + |supervisor|))
  {
    var m := Filled(c, Template(arch, build), installer, worker, supervisor);
    var payload := installer + worker + supervisor;
    ThreePieces(c, installer, worker, supervisor, arch);
    AssembledOpens(c, payload, m);
    if |c.encode(m)| <= MAX_MANIFEST {
      AssembledParts(c, payload, m);
    }
  }

  function PiecesOf(c: Codec, parts: seq<Bytes>): seq<Piece> {
    if parts == [] then [] else [PieceOf(c, parts[0])] + PiecesOf(c, parts[1..])
  }

  /** Parts laid one after the other are what their pieces describe. */
  lemma {:induction false} PartsFitTheirPieces(c: Codec, before: Bytes, parts: seq<Bytes>, arch: string)
    requires Faithful(c) && forall i :: 0 <= i < |parts| ==> Packable(c, parts[i], arch)
    ensures PiecesOk(c, before + Concat(parts), PiecesOf(c, parts), |before|, arch)
        && Cut(before + Concat(parts), PiecesOf(c, parts), |before|) == parts
    decreases |parts|
  {
    if parts == [] {
      assert before + [] == before;
    } else {
      var first, rest := parts[0], parts[1..];
      PartsFitTheirPieces(c, before + first, rest, arch);
      hide PiecesOk, Cut, Packable;
      assert |c.digest(first)| == 32;
      var payload := before + Concat(parts);
      FirstPart(before, first, Concat(rest));
      OneMorePiece(c, payload, first, |before|, PiecesOf(c, rest), arch);
      assert parts == [first] + rest;
    }
  }

  lemma FirstPart(before: Bytes, first: Bytes, rest: Bytes)
    ensures before + (first + rest) == (before + first) + rest
    ensures var all := before + (first + rest);
            |before| + |first| <= |all| && all[|before|..|before| + |first|] == first
  {
  }

  lemma OneMorePiece(c: Codec, payload: Bytes, first: Bytes, offset: nat, pieces: seq<Piece>, arch: string)
    requires |c.digest(first)| == 32 && Packable(c, first, arch) && offset + |first| <= |payload|
        && payload[offset..offset + |first|] == first
    requires PiecesOk(c, payload, pieces, offset + |first|, arch)
    ensures PiecesOk(c, payload, [PieceOf(c, first)] + pieces, offset, arch)
    ensures Cut(payload, [PieceOf(c, first)] + pieces, offset) == [first] + Cut(payload, pieces, offset + |first|)
  {
    var all := [PieceOf(c, first)] + pieces;
    assert all[0] == PieceOf(c, first) && all[1..] == pieces && Slice(payload, offset, |first|) == first;
  }

  lemma ThreePieces(c: Codec, a: Bytes, b: Bytes, d: Bytes, arch: string)
    requires Faithful(c) && Packable(c, a, arch) && Packable(c, b, arch) && Packable(c, d, arch)
    ensures var pieces := [PieceOf(c, a), PieceOf(c, b), PieceOf(c, d)];
            PiecesOk(c, a + b + d, pieces, 0, arch) && Cut(a + b + d, pieces, 0) == [a, b, d]
  {
    hide PiecesOk, Cut;
    PartsFitTheirPieces(c, [], [a, b, d], arch);
    assert [a, b, d][1..] == [b, d] && [b, d][1..] == [d] && [d][1..] == [];
    assert Concat([d]) == d + [] && Concat([b, d]) == b + Concat([d]);
    assert [] + Concat([a, b, d]) == a + b + d;
    assert PiecesOf(c, [d]) == [PieceOf(c, d)] && PiecesOf(c, [b, d]) == [PieceOf(c, b)] + PiecesOf(c, [d]);
    assert PiecesOf(c, [a, b, d]) == [PieceOf(c, a), PieceOf(c, b), PieceOf(c, d)];
  }

  /** The direct Spark package: two executables, nothing for a supervisor. */
  lemma SparkPackRoundTrip(c: Codec, installer: Bytes, worker: Bytes, arch: string, build: string)
    requires Faithful(c) && Packed(c, installer, worker, [], SparkTemplate(arch, build)).Some?
    ensures var file := Packed(c, installer, worker, [], SparkTemplate(arch, build)).value;
            var m := Filled(c, SparkTemplate(arch, build), installer, worker, []);
            && (Opened(c, file).Some? <==> |c.encode(m)| <= MAX_MANIFEST)
            && (Opened(c, file).Some? ==> Executables(Opened(c, file).value) == [installer, worker])
            && (Opened(c, file).Some? ==> Opened(c, file).value == Bundle(file, m, |installer| + |worker|))
  {
    var m := Filled(c, SparkTemplate(arch, build), installer, worker, []);
    var payload := installer + worker + [];
    TwoPieces(c, installer, worker, arch);
    AssembledOpens(c, payload, m);
    if |c.encode(m)| <= MAX_MANIFEST {
      AssembledParts(c, payload, m);
    }
  }

  lemma TwoPieces(c: Codec, a: Bytes, b: Bytes, arch: string)
    requires Faithful(c) && Packable(c, a, arch) && Packable(c, b, arch)
    ensures var pieces := [PieceOf(c, a), PieceOf(c, b)];
            PiecesOk(c, a + b + [], pieces, 0, arch) && Cut(a + b + [], pieces, 0) == [a, b]
  {
    hide PiecesOk, Cut;
    PartsFitTheirPieces(c, [], [a, b], arch);
    assert [a, b][1..] == [b] && [b][1..] == [];
    assert Concat([b]) == b + [];
    assert [] + Concat([a, b]) == a + b + [];
    assert PiecesOf(c, [b]) == [PieceOf(c, b)];
    assert PiecesOf(c, [a, b]) == [PieceOf(c, a), PieceOf(c, b)];
  }

  // ---------------------------------------------------------------- personalizing

  function Personal(b: Bundle, e: Option<Enrollment>): Manifest {
    b.manifest.(enrollment := e)
  }

  /** The file for one machine, or nothing if the enrollment or the manifest's size is not allowed. */
  function Personalized(c: Codec, b: Bundle, e: Option<Enrollment>): Option<Bytes>
    requires b.payload <= |b.file|
  {
    if e.Some? && !c.acceptable(e.value) then None
    else if |c.encode(Personal(b, e))| > MAX_MANIFEST then None
    else Some(Assembled(c, b.file[..b.payload], Personal(b, e)))
  }

  function SizeWith(c: Codec, b: Bundle, e: Option<Enrollment>): nat {
    b.payload + |c.encode(Personal(b, e))| + FOOTER
  }

  /** The announced size is the number of bytes written. */
  lemma SizeIsExact(c: Codec, b: Bundle, e: Option<Enrollment>)
    requires Faithful(c) && b.payload <= |b.file| && Personalized(c, b, e).Some?
    ensures |Personalized(c, b, e).value| == SizeWith(c, b, e)
  {
    AssembledParts(c, b.file[..b.payload], Personal(b, e));
  }

  /** Personalizing an accepted file with any acceptable enrollment and opening the result gives the same executables
      and that enrollment. */
  lemma PersonalizeRoundTrip(c: Codec, file: Bytes, e: Option<Enrollment>)
    requires Faithful(c) && Opened(c, file).Some? && Personalized(c, Opened(c, file).value, e).Some?
    ensures var b := Opened(c, file).value; var out := Personalized(c, b, e).value;
            Opened(c, out) == Some(Bundle(out, b.manifest.(enrollment := e), b.payload))
                && Executables(Opened(c, out).value) == Executables(b)
  {
    var b := Opened(c, file).value;
    var payload, m := file[..b.payload], Personal(b, e);
    PayloadBounded(c, payload, Pieces(m), 0, m.arch);
    AssembledOpens(c, payload, m);
    AssembledParts(c, payload, m);
  }

  lemma {:induction false} PayloadBounded(c: Codec, payload: Bytes, pieces: seq<Piece>, offset: nat, arch: string)
    requires PiecesOk(c, payload, pieces, offset, arch)
    ensures |payload| <= offset + |pieces| * MAX_EXECUTABLE
    decreases |pieces|
  {
    if pieces != [] {
      PayloadBounded(c, payload, pieces[1..], offset + pieces[0].size, arch);
    }
  }

  /** Taking the enrollment out of a personalized template gives the template back, byte for byte. */
  lemma TemplateRecovered(c: Codec, installer: Bytes, worker: Bytes, supervisor: Bytes, arch: string, build: string,
                          e: Enrollment)
    requires Faithful(c) && Packed(c, installer, worker, supervisor, Template(arch, build)).Some?
    requires var file := Packed(c, installer, worker, supervisor, Template(arch, build)).value;
             Opened(c, file).Some? && Personalized(c, Opened(c, file).value, Some(e)).Some?
    ensures var file := Packed(c, installer, worker, supervisor, Template(arch, build)).value;
            var out := Personalized(c, Opened(c, file).value, Some(e)).value;
            Opened(c, out).Some? && Personalized(c, Opened(c, out).value, None) == Some(file)
  {
    var file := Packed(c, installer, worker, supervisor, Template(arch, build)).value;
    var m := Filled(c, Template(arch, build), installer, worker, supervisor);
    PackRoundTrip(c, installer, worker, supervisor, arch, build);
    PersonalizeRoundTrip(c, file, Some(e));
    var b := Opened(c, file).value;
    AssembledParts(c, installer + worker + supervisor, m);
    AssembledParts(c, file[..b.payload], Personal(b, Some(e)));
    assert m.(enrollment := Some(e)).(enrollment := None) == m;
  }

  /** So it is for the package of two executables. */
  lemma SparkTemplateRecovered(c: Codec, installer: Bytes, worker: Bytes, arch: string, build: string, e: Enrollment)
    requires Faithful(c) && Packed(c, installer, worker, [], SparkTemplate(arch, build)).Some?
    requires var file := Packed(c, installer, worker, [], SparkTemplate(arch, build)).value;
             Opened(c, file).Some? && Personalized(c, Opened(c, file).value, Some(e)).Some?
    ensures var file := Packed(c, installer, worker, [], SparkTemplate(arch, build)).value;
            var out := Personalized(c, Opened(c, file).value, Some(e)).value;
            Opened(c, out).Some? && Personalized(c, Opened(c, out).value, None) == Some(file)
  {
    var file := Packed(c, installer, worker, [], SparkTemplate(arch, build)).value;
    var m := Filled(c, SparkTemplate(arch, build), installer, worker, []);
    SparkPackRoundTrip(c, installer, worker, arch, build);
    PersonalizeRoundTrip(c, file, Some(e));
    var b := Opened(c, file).value;
    AssembledParts(c, installer + worker + [], m);
    AssembledParts(c, file[..b.payload], Personal(b, Some(e)));
    assert m.(enrollment := Some(e)).(enrollment := None) == m;
  }

  // ---------------------------------------------------------------- the operations

  /** The pieces are checked one after the other with a running offset. */
  method CheckPieces(c: Codec, payload: Bytes, pieces: seq<Piece>, arch: string) returns (ok: bool)
    ensures ok <==> PiecesOk(c, payload, pieces, 0, arch)
  {
    var offset, i := 0, 0;
    assert pieces[0..] == pieces;
    while i < |pieces|
      invariant 0 <= i <= |pieces| && 0 <= offset
      invariant PiecesOk(c, payload, pieces, 0, arch) <==> PiecesOk(c, payload, pieces[i..], offset, arch)
    {
      var p := pieces[i];
      assert pieces[i..][0] == p && pieces[i..][1..] == pieces[i + 1..];
      if p.size < 64 || p.size > MAX_EXECUTABLE || |p.digest| != 32 || offset + p.size > |payload| {
        return false;
      }
      var data := payload[offset..offset + p.size];
      if c.digest(data) != p.digest || !c.executable(data, arch) {
        return false;
      }
      offset, i := offset + p.size, i + 1;
    }
    assert pieces[i..] == [];
    return offset == |payload|;
  }

  method Open(c: Codec, file: Bytes) returns (r: Option<Bundle>)
    ensures r == Opened(c, file)
  {
    hide OpenedAt, Value;
    var size := |file|;
    if size < FOOTER || size > MAX_FILE {
      return None;
    }
    if file[size - FOOTER..size - FOOTER + 16] != MAGIC {
      return None;
    }
    var n := Value(file[size - FOOTER + 16..size - FOOTER + 24]);
    if n <= 0 || n > MAX_MANIFEST || n > size - FOOTER {
      return None;
    }
    r := OpenManifest(c, file, n);
  }

  method OpenManifest(c: Codec, file: Bytes, n: nat) returns (r: Option<Bundle>)
    requires n + FOOTER <= |file|
    ensures r == OpenedAt(c, file, n)
  {
    hide PiecesOk, PlatformOk, VariantOk;
    var payload := |file| - FOOTER - n;
    var raw := file[payload..payload + n];
    if c.digest(raw) != file[|file| - FOOTER + 24..] {
      return None;
    }
    var decoded := c.decode(raw);
    if decoded.None? {
      return None;
    }
    var m := decoded.value;
    if !PlatformOk(m) || !VariantOk(m) {
      return None;
    }
    var ok := CheckPieces(c, file[..payload], Pieces(m), m.arch);
    if !ok || (m.enrollment.Some? && !c.acceptable(m.enrollment.value)) {
      return None;
    }
    return Some(Bundle(file, m, payload));
  }

  method WriteBundle(c: Codec, b: Bundle, e: Option<Enrollment>) returns (out: Option<Bytes>, total: nat)
    requires b.payload <= |b.file| && Faithful(c)
    ensures out == Personalized(c, b, e) && (out.Some? ==> total == |out.value| == SizeWith(c, b, e))
        && (out.None? ==> total == 0)
  {
    total := 0;
    if e.Some? && !c.acceptable(e.value) {
      return None, 0;
    }
    var m := b.manifest.(enrollment := e);
    var raw := c.encode(m);
    if |raw| > MAX_MANIFEST {
      return None, 0;
    }
    var written := b.file[..b.payload];
    written := written + raw;
    written := written + (MAGIC + BigEndian(|raw|, 8) + c.digest(raw));
    AssembledParts(c, b.file[..b.payload], m);
    out, total := Some(written), b.payload + |raw| + FOOTER;
  }

  /** The parts are measured and checked in turn while the manifest is filled in. */
  method PackManifest(c: Codec, installer: Bytes, worker: Bytes, supervisor: Bytes, m: Manifest)
      returns (out: Option<Bytes>)
    ensures out == Packed(c, installer, worker, supervisor, m)
  {
    if !VariantOk(m) {
      return None;
    }
    var parts := if m.format == 1 then [installer, worker, supervisor] else [installer, worker];
    var filled: seq<Piece> := [];
    var i := 0;
    while i < |parts|
      invariant 0 <= i <= |parts| && |filled| == i
      invariant forall j :: 0 <= j < i ==> filled[j] == PieceOf(c, parts[j]) && Packable(c, parts[j], m.arch)
    {
      if |parts[i]| > MAX_EXECUTABLE || |parts[i]| < 64 || !c.executable(parts[i], m.arch) {
        assert !Packable(c, parts[i], m.arch);
        return None;
      }
      filled, i := filled + [PieceOf(c, parts[i])], i + 1;
    }
    assert Packable(c, parts[0], m.arch) && Packable(c, parts[1], m.arch)
        && (m.format == 1 ==> Packable(c, parts[2], m.arch));
    if (m.arch != "amd64" && m.arch != "arm64") || m.build == "" || |m.build| > 128 {
      return None;
    }
    var done := m.(installer := filled[0], worker := filled[1], supervisor := if m.format == 1 then filled[2]
        else m.supervisor);
    var raw := c.encode(done);
    var written := installer + worker + supervisor;
    written := written + raw;
    written := written + (MAGIC + BigEndian(|raw|, 8) + c.digest(raw));
    return Some(written);
  }
}
