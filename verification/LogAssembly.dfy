/**
  Assembly of log records from raw reads (`internal/spark/logs.go`): complete
  lines up to 16 KiB are emitted verbatim, longer ones as one drop marker, and an
  unfinished rest only as a marker at the end.
*/
module LogAssembly {
  newtype byte = x: int | 0 <= x < 256

  const NEWLINE: byte := 10
  const MAX_LINE := 16384

  datatype Emission = Line(text: seq<byte>) | OversizedDropped | IncompleteDropped

  /** The state between two reads. */
  datatype State = State(pending: seq<byte>, dropping: bool)

  const FRESH := State([], false)

  // ---------------------------------------------------------------- byte by byte

  /** What one byte does. */
  function Step(s: State, b: byte): (State, seq<Emission>) {
    if b == NEWLINE then (FRESH, [if s.dropping then OversizedDropped else Line(s.pending)])
    else if s.dropping then (s, [])
    else if |s.pending| + 1 > MAX_LINE then (State([], true), [])
    else (s.(pending := s.pending + [b]), [])
  }

  /** What a run of bytes does. */
  function Fed(s: State, bytes: seq<byte>): (State, seq<Emission>)
    decreases |bytes|
  {
    if bytes == [] then (s, [])
    else
      var first := Step(s, bytes[0]);
      var rest := Fed(first.0, bytes[1..]);
      (rest.0, first.1 + rest.1)
  }

  /** Chunk invariance: how the stream is cut into reads changes neither the records nor the end state. */
  lemma {:induction false} FedInParts(s: State, a: seq<byte>, b: seq<byte>)
    ensures Fed(s, a + b) == (Fed(Fed(s, a).0, b).0, Fed(s, a).1 + Fed(Fed(s, a).0, b).1)
    decreases |a|
  {
    if a == [] {
      assert a + b == b && [] + Fed(s, b).1 == Fed(s, b).1;
    } else {
      assert (a + b)[0] == a[0] && (a + b)[1..] == a[1..] + b;
      var first := Step(s, a[0]);
      FedInParts(first.0, a[1..], b);
      var middle := Fed(first.0, a[1..]);
      assert first.1 + (middle.1 + Fed(middle.0, b).1) == (first.1 + middle.1) + Fed(middle.0, b).1;
    }
  }

  function Concat(chunks: seq<seq<byte>>): seq<byte> {
    if chunks == [] then [] else chunks[0] + Concat(chunks[1..])
  }

  function FedChunks(s: State, chunks: seq<seq<byte>>): (State, seq<Emission>)
    decreases |chunks|
  {
    if chunks == [] then (s, [])
    else
      var first := Fed(s, chunks[0]);
      var rest := FedChunks(first.0, chunks[1..]);
      (rest.0, first.1 + rest.1)
  }

  lemma {:induction false} ChunkInvariance(s: State, chunks: seq<seq<byte>>)
    ensures FedChunks(s, chunks) == Fed(s, Concat(chunks))
    decreases |chunks|
  {
    if chunks != [] {
      FedInParts(s, chunks[0], Concat(chunks[1..]));
      ChunkInvariance(Fed(s, chunks[0]).0, chunks[1..]);
    }
  }

  // ---------------------------------------------------------------- the simple reading: split at newlines

  /** Position of the first newline, or the length. */
  function FirstNewline(bytes: seq<byte>): (n: nat)
    ensures n <= |bytes| && NEWLINE !in bytes[..n] && (n < |bytes| ==> bytes[n] == NEWLINE)
  {
    if bytes == [] || bytes[0] == NEWLINE then 0
    else
      var n := 1 + FirstNewline(bytes[1..]);
      assert bytes[..n] == [bytes[0]] + bytes[1..][..n - 1];
      n
  }

  /** The stream split at its newlines; the last piece is what follows the last newline. */
  function Lines(bytes: seq<byte>): (lines: seq<seq<byte>>)
    ensures |lines| >= 1
    decreases |bytes|
  {
    var n := FirstNewline(bytes);
    if n == |bytes| then [bytes] else [bytes[..n]] + Lines(bytes[n + 1..])
  }

  function EmissionOf(line: seq<byte>): Emission {
    if |line| > MAX_LINE then OversizedDropped else Line(line)
  }

  function EmissionsOf(lines: seq<seq<byte>>): seq<Emission> {
    seq(|lines|, k requires 0 <= k < |lines| => EmissionOf(lines[k]))
  }

  /** The state that holds the unfinished line `rest`. */
  function Holding(rest: seq<byte>): State {
    if |rest| > MAX_LINE then State([], true) else State(rest, false)
  }

  /** Bytes without a newline are held back. */
  lemma {:induction false} FedWithinLine(held: seq<byte>, part: seq<byte>)
    requires NEWLINE !in part
    ensures Fed(Holding(held), part) == (Holding(held + part), [])
    decreases |part|
  {
    if part == [] {
      assert held + part == held;
    } else {
      assert part[0] != NEWLINE && NEWLINE !in part[1..];
      assert Step(Holding(held), part[0]) == (Holding(held + [part[0]]), []);
      FedWithinLine(held + [part[0]], part[1..]);
      assert held + [part[0]] + part[1..] == held + part && [] + Fed(Holding(held + [part[0]]), part[1..]).1 == [];
    }
  }

  /** The assembler refines the simple reading: every complete line gives its emission, the rest is held. */
  lemma {:induction false} FedIsSplit(bytes: seq<byte>)
    ensures var lines := Lines(bytes);
            Fed(FRESH, bytes) == (Holding(lines[|lines| - 1]), EmissionsOf(lines[..|lines| - 1]))
    decreases |bytes|
  {
    var n := FirstNewline(bytes);
    var lines := Lines(bytes);
    FedOneLine(bytes, n);
    if n < |bytes| {
      FedIsSplit(bytes[n + 1..]);
      var rest := Lines(bytes[n + 1..]);
      assert lines == [bytes[..n]] + rest && lines[..|lines| - 1] == [bytes[..n]] + rest[..|rest| - 1];
      EmissionsCons(bytes[..n], rest[..|rest| - 1]);
    } else {
      assert lines == [bytes] && lines[..0] == [] && EmissionsOf([]) == [];
    }
  }

  lemma EmissionsCons(line: seq<byte>, lines: seq<seq<byte>>)
    ensures EmissionsOf([line] + lines) == [EmissionOf(line)] + EmissionsOf(lines)
  {
  }

  /** The first line, and what is left to feed. */
  lemma FedOneLine(bytes: seq<byte>, n: nat)
    requires n == FirstNewline(bytes)
    ensures if n == |bytes| then Fed(FRESH, bytes) == (Holding(bytes), [])
            else Fed(FRESH, bytes) == (Fed(FRESH, bytes[n + 1..]).0,
                [EmissionOf(bytes[..n])] + Fed(FRESH, bytes[n + 1..]).1)
  {
    FedLine(FRESH, bytes, n);
    assert [] + bytes[..n] == bytes[..n];
    assert n == |bytes| ==> bytes[..n] == bytes;
  }

  /** Nothing longer than a line is ever held or emitted. */
  lemma {:induction false} FedIsBounded(s: State, bytes: seq<byte>)
    requires |s.pending| <= MAX_LINE && (s.dropping ==> s.pending == [])
    ensures var o := Fed(s, bytes);
            && |o.0.pending| <= MAX_LINE && (o.0.dropping ==> o.0.pending == [])
            && forall k :: 0 <= k < |o.1| && o.1[k].Line? ==> |o.1[k].text| <= MAX_LINE
    decreases |bytes|
  {
    if bytes != [] {
      FedIsBounded(Step(s, bytes[0]).0, bytes[1..]);
    }
  }

  // ---------------------------------------------------------------- the assembler

  /** Like `Fed`, for a part without a newline: the two loops of the source agree. */
  lemma FedPart(s: State, part: seq<byte>)
    requires NEWLINE !in part && |s.pending| <= MAX_LINE && (s.dropping ==> s.pending == [])
    ensures Fed(s, part) == (if s.dropping then s else if |s.pending| + |part| > MAX_LINE then State([], true)
        else State(s.pending + part, false), [])
  {
    if s.dropping {
      var oversized := seq(MAX_LINE + 1, _ => 0);
      assert Holding(oversized) == s;
      FedWithinLine(oversized, part);
    } else {
      FedWithinLine(s.pending, part);
    }
  }

  /** One turn of the loop: the part before the newline at `n`, then the newline. */
  lemma FedLine(s: State, bytes: seq<byte>, n: nat)
    requires n == FirstNewline(bytes) && |s.pending| <= MAX_LINE && (s.dropping ==> s.pending == [])
    ensures var t := if s.dropping then s else if |s.pending| + n > MAX_LINE then State([], true)
        else State(s.pending + bytes[..n], false);
            if n == |bytes| then Fed(s, bytes) == (t, [])
            else Fed(s, bytes) == (Fed(FRESH, bytes[n + 1..]).0,
                [if t.dropping then OversizedDropped else Line(t.pending)] + Fed(FRESH, bytes[n + 1..]).1)
  {
    FedPart(s, bytes[..n]);
    FedInParts(s, bytes[..n], bytes[n..]);
    assert bytes[..n] + bytes[n..] == bytes;
    var t := Fed(s, bytes[..n]).0;
    if n == |bytes| {
      assert bytes[n..] == [];
    } else {
      assert bytes[n..][0] == NEWLINE && bytes[n..][1..] == bytes[n + 1..];
      assert [] + Fed(t, bytes[n..]).1 == Fed(t, bytes[n..]).1;
    }
  }

  class RecordAssembler {
    var pending: seq<byte>
    var dropping: bool

    ghost predicate Valid()
      reads this
    {
      |pending| <= MAX_LINE && (dropping ==> pending == [])
    }

    function Held(): State
      reads this
    {
      State(pending, dropping)
    }

    constructor ()
      ensures Valid() && Held() == FRESH
    {
      pending, dropping := [], false;
    }

    method Feed(chunk: seq<byte>) returns (emitted: seq<Emission>)
      requires Valid()
      modifies this
      ensures Valid() && (Held(), emitted) == Fed(old(Held()), chunk)
    {
      emitted := [];
      var rest := chunk;
      assert [] + Fed(Held(), chunk).1 == Fed(Held(), chunk).1;
      while |rest| > 0
        invariant Valid()
        invariant Fed(old(Held()), chunk) == (Fed(Held(), rest).0, emitted + Fed(Held(), rest).1)
        decreases |rest|
      {
        var n := FirstNewline(rest);
        var part := rest[..n];
        ghost var held := Held();
        FedLine(held, rest, n);
        if !dropping {
          if |pending| + |part| > MAX_LINE {
            pending, dropping := [], true;
          } else {
            pending := pending + part;
          }
        }
        if n == |rest| {
          assert emitted + [] == emitted;
          return;
        }
        var out := if dropping then OversizedDropped else Line(pending);
        assert emitted + ([out] + Fed(FRESH, rest[n + 1..]).1) == (emitted + [out]) + Fed(FRESH, rest[n + 1..]).1;
        emitted := emitted + [out];
        pending, dropping := [], false;
        rest := rest[n + 1..];
      }
      assert rest == [] && emitted + [] == emitted;
    }

    /** The end of the source: an unfinished line is only ever announced, never emitted. */
    method Finish() returns (emitted: seq<Emission>)
      requires Valid()
      modifies this
      ensures Valid() && Held() == FRESH
      ensures emitted == if old(Held()) == FRESH then [] else [IncompleteDropped]
    {
      emitted := if |pending| > 0 || dropping then [IncompleteDropped] else [];
      pending, dropping := [], false;
    }
  }
}
