/**
  Installing over an existing agent and taking the installation back
  (`internal/install/recovery.go`, `internal/install/linux.go`).

  Both are ordered sequences of atomic file writes that may stop after any of
  them: a crash, a failed write or a failed service start leaves a prefix.  A
  digest is modelled by the bytes it was taken of; the unique id of a recovery
  point is a number that was not used before.
*/
module InstallRecovery {
  import opened SparkTypes

  type Bytes = seq<int>

  datatype Flavor = General | SparkLight

  datatype Part = WorkerPart | UnitPart | HostPart | PrefixWorkerPart

  /** The agent's configuration: who it is enrolled as, what it runs as, and everything else of the enrollment. */
  datatype Config = Config(agentId: string, controllerId: string, stateDir: string, flavor: Flavor, runtimeMode: string,
      managed: bool, enrollment: string)

  datatype Candidate = Candidate(worker: Bytes, host: Bytes, unitText: Bytes, flavor: Flavor)

  datatype Point = Point(
    id: nat,
    agentId: string,
    controllerId: string,
    stateDir: string,
    flavor: Flavor,
    runtimeMode: string,
    managed: bool,
    files: map<Part, Bytes>,
    candidate: Candidate,
    settled: bool)

  datatype Disk = Disk(
    worker: Option<Bytes>,
    prefixWorker: Option<Bytes>,
    host: Option<Bytes>,
    unitFile: Option<Bytes>,
    config: Config,
    point: Option<Point>,
    backups: map<(nat, Part), Bytes>)

  datatype FileWrite =
    | WriteBackup(id: nat, part: Part, bytes: Bytes)
    | WritePoint(point: Point)
    | WriteHost(bytes: Bytes)
    | WritePrefixWorker(bytes: Bytes)
    | WriteWorker(bytes: Bytes)
    | WriteConfig(config: Config)
    | WriteUnit(bytes: Bytes)

  datatype Refusal =
    | FlavorPreserved | OtherBinding | OtherCandidate | PartsCorrupt | OrphanWorker | WorkerInvalid | BackupIncomplete
    | NoPoint | PointInvalid | PointIncomplete | OtherEnrollment | StateElsewhere

  datatype Plan = Refuse(why: Refusal) | Proceed(writes: seq<FileWrite>)

  /** Where the installation lives, whether a flavor may be converted, and which bytes are valid executables here. */
  datatype Options = Options(stateDir: string, convert: bool, runnable: Bytes -> bool)

  // ---------------------------------------------------------------- writes

  function Put(d: Disk, w: FileWrite): Disk {
    match w
    case WriteBackup(id, part, bytes) => d.(backups := d.backups[(id, part) := bytes])
    case WritePoint(point) => d.(point := Some(point))
    case WriteHost(bytes) => d.(host := Some(bytes))
    case WritePrefixWorker(bytes) => d.(prefixWorker := Some(bytes))
    case WriteWorker(bytes) => d.(worker := Some(bytes))
    case WriteConfig(config) => d.(config := config)
    case WriteUnit(bytes) => d.(unitFile := Some(bytes))
  }

  function PutAll(d: Disk, writes: seq<FileWrite>): Disk
    decreases |writes|
  {
    if writes == [] then d else Put(PutAll(d, writes[..|writes| - 1]), writes[|writes| - 1])
  }

  lemma PutSnoc(d: Disk, writes: seq<FileWrite>, w: FileWrite)
    ensures PutAll(d, writes + [w]) == Put(PutAll(d, writes), w)
  {
    assert (writes + [w])[..|writes|] == writes;
  }

  lemma {:induction false} PutAppend(d: Disk, a: seq<FileWrite>, b: seq<FileWrite>)
    ensures PutAll(d, a + b) == PutAll(PutAll(d, a), b)
    decreases |b|
  {
    if b == [] {
      assert a + b == a;
    } else {
      PutAppend(d, a, b[..|b| - 1]);
      assert (a + b)[..|a + b| - 1] == a + b[..|b| - 1];
    }
  }

  // ---------------------------------------------------------------- recovery points

  function FileOf(d: Disk, part: Part): Option<Bytes> {
    match part
    case WorkerPart => d.worker
    case UnitPart => d.unitFile
    case HostPart => d.host
    case PrefixWorkerPart => d.prefixWorker
  }

  predicate Needed(flavor: Flavor, part: Part) {
    part == WorkerPart || part == UnitPart || (part == HostPart && flavor == General)
  }

  predicate Wanted(flavor: Flavor, part: Part) {
    Needed(flavor, part) || part == PrefixWorkerPart
  }

  function PartsToSave(flavor: Flavor): seq<Part> {
    if flavor == General then [WorkerPart, UnitPart, PrefixWorkerPart, HostPart]
        else [WorkerPart, UnitPart, PrefixWorkerPart]
  }

  /** Some needed part is missing on disk, so it cannot be backed up. */
  predicate MissingPart(d: Disk, flavor: Flavor) {
    d.worker.None? || d.unitFile.None? || (flavor == General && d.host.None?)
  }

  function SavedFiles(d: Disk, flavor: Flavor): map<Part, Bytes> {
    map part | part in {WorkerPart, UnitPart, HostPart, PrefixWorkerPart} && Wanted(flavor, part)
        && FileOf(d, part).Some? :: FileOf(d, part).value
  }

  /** The backups of the parts that exist, in order. */
  function BackupWrites(d: Disk, id: nat, parts: seq<Part>): seq<FileWrite> {
    if parts == [] then []
    else BackupWrites(d, id, parts[..|parts| - 1]) +
         if FileOf(d, parts[|parts| - 1]).Some? then [WriteBackup(id, parts[|parts| - 1],
             FileOf(d, parts[|parts| - 1]).value)] else []
  }

  /** The point has every needed part, and the saved bytes are still what was recorded. */
  predicate PartsVerified(d: Disk, p: Point) {
    && (forall part :: part in {WorkerPart, UnitPart, HostPart, PrefixWorkerPart} && Needed(p.flavor, part) ==>
        part in p.files)
    && (forall part :: part in p.files ==> (p.id, part) in d.backups && d.backups[(p.id, part)] == p.files[part])
  }

  predicate SameInstallation(d: Disk, c: Candidate) {
    && d.worker == Some(c.worker) && d.config.flavor == c.flavor
    && (c.flavor == SparkLight && d.config.managed ==> d.config.runtimeMode == "direct")
    && (d.unitFile.None? || d.unitFile == Some(c.unitText))
    && (c.flavor == General ==> d.host == Some(c.host))
  }

  function NewPoint(d: Disk, o: Options, c: Candidate, id: nat): Point {
    Point(id, d.config.agentId, d.config.controllerId, o.stateDir, d.config.flavor, d.config.runtimeMode,
        d.config.managed, SavedFiles(d, d.config.flavor), c, false)
  }

  /** What is written before anything is replaced, or why nothing may be replaced. */
  function RecoveryPlan(d: Disk, o: Options, c: Candidate, id: nat): Plan {
    if d.point.Some? && !d.point.value.settled then
      var prior := d.point.value;
      if prior.agentId != d.config.agentId || prior.controllerId != d.config.controllerId
          || prior.stateDir != o.stateDir then Refuse(OtherBinding)
      else if prior.candidate != c then Refuse(OtherCandidate)
      else if !PartsVerified(d, prior) then Refuse(PartsCorrupt)
      else Proceed([])
    else if d.worker.None? then Proceed([])
    else if !d.config.managed && !(d.worker == Some(c.worker) && d.config.flavor == c.flavor) then Refuse(OrphanWorker)
    else if SameInstallation(d, c) then Proceed([])
    else if !o.runnable(d.worker.value) then Refuse(WorkerInvalid)
    else if MissingPart(d, d.config.flavor) then Refuse(BackupIncomplete)
    else Proceed(BackupWrites(d, id, PartsToSave(d.config.flavor)) + [WritePoint(NewPoint(d, o, c, id))])
  }

  function Managed(config: Config, flavor: Flavor): Config {
    config.(managed := true, flavor := flavor, runtimeMode := if flavor == SparkLight then "direct" else "")
  }

  /** The replacement itself: the host for the general flavor, both worker slots, the configuration, the unit. */
  function ReplaceWrites(d: Disk, c: Candidate): seq<FileWrite> {
    (if c.flavor == General then [WriteHost(c.host)] else []) + FileWrites(c, d.config)
  }

  function FileWrites(c: Candidate, config: Config): seq<FileWrite> {
    [WritePrefixWorker(c.worker), WriteWorker(c.worker), WriteConfig(Managed(config, c.flavor)), WriteUnit(c.unitText)]
  }

  /** The last write, once the service is confirmed: the point of exactly this candidate is settled. */
  function SettleWrites(point: Option<Point>, c: Candidate): seq<FileWrite> {
    if point.Some? && point.value.candidate == c then [WritePoint(point.value.(settled := true))] else []
  }

  function InstallPlan(d: Disk, o: Options, c: Candidate, id: nat): Plan {
    if d.config.stateDir != o.stateDir then Refuse(StateElsewhere)
    else if d.config.managed && d.config.flavor != c.flavor && !o.convert then Refuse(FlavorPreserved)
    else
      var recovery := RecoveryPlan(d, o, c, id);
      if recovery.Refuse? then recovery
      else Proceed(recovery.writes + ReplaceWrites(d, c) + SettleWrites(PutAll(d, recovery.writes).point, c))
  }

  function Restored(config: Config, p: Point): Config {
    config.(flavor := p.flavor, runtimeMode := p.runtimeMode, managed := p.managed)
  }

  /** The current configuration with flavor, mode and management of the original one. */
  function RestoredFrom(current: Config, original: Config): Config {
    current.(flavor := original.flavor, runtimeMode := original.runtimeMode, managed := original.managed)
  }

  function PartOf(p: Point, part: Part): Bytes {
    if part in p.files then p.files[part] else []
  }

  function RestoreWrites(d: Disk, p: Point): seq<FileWrite> {
    [WriteWorker(PartOf(p, WorkerPart))] +
    (if PartOf(p, PrefixWorkerPart) != [] then [WritePrefixWorker(PartOf(p, PrefixWorkerPart))] else []) +
    (if PartOf(p, HostPart) != [] then [WriteHost(PartOf(p, HostPart))] else []) +
    [WriteConfig(Restored(d.config, p)), WriteUnit(PartOf(p, UnitPart))]
  }

  predicate EmptyPart(p: Point) {
    PartOf(p, WorkerPart) == [] || PartOf(p, UnitPart) == [] || (p.flavor == General && PartOf(p, HostPart) == [])
  }

  function RollbackPlan(d: Disk, o: Options): Plan {
    if d.point.None? then Refuse(NoPoint)
    else
      var p := d.point.value;
      if p.stateDir != o.stateDir || !p.managed then Refuse(PointInvalid)
      else if !PartsVerified(d, p) then Refuse(PartsCorrupt)
      else if EmptyPart(p) then Refuse(PointIncomplete)
      else if !o.runnable(PartOf(p, WorkerPart)) || (p.flavor == General && !o.runnable(PartOf(p, HostPart)))
          then Refuse(WorkerInvalid)
      else if d.config.agentId != p.agentId || d.config.controllerId != p.controllerId
          || d.config.stateDir != o.stateDir then Refuse(OtherEnrollment)
      else Proceed(RestoreWrites(d, p) + SettleWrites(d.point, p.candidate))
  }

  // ---------------------------------------------------------------- what a prefix of the writes leaves

  predicate Plain(w: FileWrite) {
    !w.WriteBackup? && !w.WritePoint?
  }

  /** Replacing or restoring files touches neither the recovery point nor the backups, and keeps the enrollment. */
  lemma {:induction false} PlainKeepsPoint(d: Disk, writes: seq<FileWrite>)
    requires forall i :: 0 <= i < |writes| ==> Plain(writes[i])
    ensures PutAll(d, writes).point == d.point && PutAll(d, writes).backups == d.backups
    decreases |writes|
  {
    if writes != [] {
      PlainKeepsPoint(d, writes[..|writes| - 1]);
    }
  }

  predicate Preparing(w: FileWrite) {
    w.WriteBackup? || w.WritePoint?
  }

  /** Preparing a recovery point touches none of the installed files. */
  lemma {:induction false} PreparingKeepsFiles(d: Disk, writes: seq<FileWrite>)
    requires forall i :: 0 <= i < |writes| ==> Preparing(writes[i])
    ensures var e := PutAll(d, writes); e == d.(point := e.point, backups := e.backups)
    decreases |writes|
  {
    if writes != [] {
      PreparingKeepsFiles(d, writes[..|writes| - 1]);
    }
  }

  lemma {:induction false} BackupsArePreparing(d: Disk, id: nat, parts: seq<Part>)
    ensures forall i :: 0 <= i < |BackupWrites(d, id, parts)| ==>
              BackupWrites(d, id, parts)[i].WriteBackup? && BackupWrites(d, id, parts)[i].id == id
    decreases |parts|
  {
    if parts != [] {
      BackupsArePreparing(d, id, parts[..|parts| - 1]);
    }
  }

  /** Every listed part that exists is backed up with its bytes. */
  lemma {:induction false} BackupsHold(d: Disk, e: Disk, id: nat, parts: seq<Part>, part: Part)
    requires part in parts && FileOf(d, part).Some?
    ensures var after := PutAll(e, BackupWrites(d, id, parts));
            (id, part) in after.backups && after.backups[(id, part)] == FileOf(d, part).value
    decreases |parts|
  {
    var last, rest := parts[|parts| - 1], parts[..|parts| - 1];
    var before := BackupWrites(d, id, rest);
    if FileOf(d, last).Some? {
      PutSnoc(e, before, WriteBackup(id, last, FileOf(d, last).value));
    } else {
      assert before + [] == before;
    }
    if part != last {
      assert part in rest;
      BackupsHold(d, e, id, rest, part);
    }
  }

  // ---------------------------------------------------------------- a published point

  /** The same point, settled or not: a rollback does not care. */
  predicate Same(p: Point, q: Point) {
    p.(settled := false) == q.(settled := false)
  }

  /** The point is on disk, and its parts are what was recorded. */
  predicate Held(d: Disk, p: Point) {
    d.point.Some? && Same(d.point.value, p) && PartsVerified(d, p)
  }

  /** A write that cannot hurt the point: a file, a backup under another id, or the same point again. */
  predicate Harmless(w: FileWrite, p: Point) {
    Plain(w) || (w.WriteBackup? && w.id != p.id) || (w.WritePoint? && Same(w.point, p))
  }

  lemma HarmlessWrite(d: Disk, w: FileWrite, p: Point)
    requires Held(d, p) && Harmless(w, p)
    ensures Held(Put(d, w), p)
  {
  }

  lemma {:induction false} HarmlessWrites(d: Disk, writes: seq<FileWrite>, p: Point)
    requires Held(d, p) && forall i :: 0 <= i < |writes| ==> Harmless(writes[i], p)
    ensures Held(PutAll(d, writes), p)
    decreases |writes|
  {
    hide Held, Harmless;
    if writes != [] {
      HarmlessWrites(d, writes[..|writes| - 1], p);
      HarmlessWrite(PutAll(d, writes[..|writes| - 1]), writes[|writes| - 1], p);
    }
  }

  /** A recovery point, once published, holds the bytes of every part that existed. */
  lemma PublishedPointHolds(d: Disk, o: Options, c: Candidate, id: nat)
    requires !MissingPart(d, d.config.flavor)
    ensures var writes := BackupWrites(d, id, PartsToSave(d.config.flavor)) + [WritePoint(NewPoint(d, o, c, id))];
            Held(PutAll(d, writes), NewPoint(d, o, c, id))
  {
    var flavor := d.config.flavor;
    var parts, p := PartsToSave(flavor), NewPoint(d, o, c, id);
    var backups := BackupWrites(d, id, parts);
    PutSnoc(d, backups, WritePoint(p));
    forall part | part in p.files
      ensures (id, part) in PutAll(d, backups).backups && PutAll(d, backups).backups[(id, part)] == p.files[part]
    {
      assert part in parts;
      BackupsHold(d, d, id, parts, part);
    }
  }

  /** Stopping before the point is published leaves every installed file and the former point as they were. */
  lemma StoppedBeforePoint(d: Disk, o: Options, c: Candidate, id: nat, k: nat)
    requires !MissingPart(d, d.config.flavor) && k <= |BackupWrites(d, id, PartsToSave(d.config.flavor))|
    ensures var e := PutAll(d, BackupWrites(d, id, PartsToSave(d.config.flavor))[..k]); e == d.(backups := e.backups)
  {
    var backups := BackupWrites(d, id, PartsToSave(d.config.flavor));
    BackupsArePreparing(d, id, PartsToSave(d.config.flavor));
    PreparingKeepsFiles(d, backups[..k]);
    OnlyBackups(d, backups[..k]);
  }

  lemma {:induction false} OnlyBackups(d: Disk, writes: seq<FileWrite>)
    requires forall i :: 0 <= i < |writes| ==> writes[i].WriteBackup?
    ensures PutAll(d, writes).point == d.point
    decreases |writes|
  {
    if writes != [] {
      OnlyBackups(d, writes[..|writes| - 1]);
    }
  }

  /** While a point is unsettled, any other candidate is refused. */
  lemma OtherCandidateRefused(d: Disk, o: Options, c: Candidate, id: nat, p: Point)
    requires d.point == Some(p) && !p.settled && c != p.candidate
    ensures InstallPlan(d, o, c, id).Refuse?
  {
  }

  // ---------------------------------------------------------------- installations and rollbacks that may stop anywhere

  /** What may happen after a point was published: an installation or a rollback that stops after some of its writes
      or completes, the agent replacing its own worker, or a change of its enrollment. */
  datatype Event =
    | InstallAttempt(convert: bool, candidate: Candidate, id: nat, writes: nat)
    | RollbackAttempt(done: nat)
    | WorkerUpdated(bytes: Bytes)
    | EnrollmentChanged(config: Config)

  /** The first `k` writes of the plan, all of them if there are fewer. */
  function Attempted(d: Disk, plan: Plan, k: nat): Disk {
    if plan.Refuse? then d else PutAll(d, if k < |plan.writes| then plan.writes[..k] else plan.writes)
  }

  function After(d: Disk, o: Options, e: Event): Disk {
    match e
    case InstallAttempt(convert, c, id, k) => Attempted(d, InstallPlan(d, o.(convert := convert), c, id), k)
    case RollbackAttempt(k) => Attempted(d, RollbackPlan(d, o), k)
    case WorkerUpdated(bytes) => d.(worker := Some(bytes))
    case EnrollmentChanged(config) => d.(config := config)
  }

  function Run(d: Disk, o: Options, events: seq<Event>): Disk
    decreases |events|
  {
    if events == [] then d else After(Run(d, o, events[..|events| - 1]), o, events[|events| - 1])
  }

  /** The attempt puts a new point in place of the former one: there is none or a settled one, the candidate differs
      from what is installed, and the attempt gets as far as publishing the point. */
  predicate Replaces(d: Disk, o: Options, c: Candidate, id: nat, k: nat) {
    && (d.point.None? || d.point.value.settled)
    && InstallPlan(d, o, c, id).Proceed? && RecoveryPlan(d, o, c, id).writes != []
        && |RecoveryPlan(d, o, c, id).writes| <= k
  }

  predicate Replacing(d: Disk, o: Options, e: Event) {
    e.InstallAttempt? && Replaces(d, o.(convert := e.convert), e.candidate, e.id, e.writes)
  }

  /** Recovery point ids are unique: no later attempt uses the id of `p`. */
  predicate OtherIds(events: seq<Event>, p: Point) {
    forall i :: 0 <= i < |events| && events[i].InstallAttempt? ==> events[i].id != p.id
  }

  predicate NeverReplaced(d: Disk, o: Options, events: seq<Event>) {
    forall i :: 0 <= i < |events| ==> !Replacing(Run(d, o, events[..i]), o, events[i])
  }

  /** An attempt that replaces the point leaves the new one held, whether or not it goes on to settle it. */
  lemma ReplacedHolds(d: Disk, o: Options, c: Candidate, id: nat, k: nat)
    requires Replaces(d, o, c, id, k)
    ensures !MissingPart(d, d.config.flavor) && o.runnable(d.worker.value)
    ensures Held(Attempted(d, InstallPlan(d, o, c, id), k), NewPoint(d, o, c, id))
  {
    hide PartsVerified, PutAll, BackupWrites, Held, ReplaceWrites, SettleWrites, Harmless, SameInstallation;
    var prepare, all, p := RecoveryPlan(d, o, c, id).writes, InstallPlan(d, o, c, id).writes, NewPoint(d, o, c, id);
    PublishedPointHolds(d, o, c, id);
    var ready := PutAll(d, prepare);
    var n := if k < |all| then k else |all|;
    var rest := all[|prepare|..n];
    assert ready.point == Some(p) by { PutSnoc(d, BackupWrites(d, id, PartsToSave(d.config.flavor)), WritePoint(p)); }
    assert all == prepare + ReplaceWrites(d, c) + SettleWrites(ready.point, c);
    assert all[..n] == prepare + rest && (n == |all| ==> all[..n] == all);
    PutAppend(d, prepare, rest);
    assert rest <= ReplaceWrites(d, c) + SettleWrites(ready.point, c);
    ReplacingHarmless(d, c, ready.point, p, rest);
    HarmlessWrites(ready, rest, p);
  }

  /** Replacing the files and settling the point of the disk are harmless to it. */
  lemma ReplacingHarmless(d: Disk, c: Candidate, point: Option<Point>, p: Point, prefix: seq<FileWrite>)
    requires point.Some? ==> Same(point.value, p)
    requires prefix <= ReplaceWrites(d, c) + SettleWrites(point, c)
    ensures forall i :: 0 <= i < |prefix| ==> Harmless(prefix[i], p)
  {
    var replace := ReplaceWrites(d, c);
    assert forall i :: 0 <= i < |replace| ==> Plain(replace[i]);
    forall i | 0 <= i < |prefix|
      ensures Harmless(prefix[i], p)
    {
      assert prefix[i] == (replace + SettleWrites(point, c))[i];
    }
  }

  /** An attempt that prepares nothing leaves the point held. */
  lemma UnpreparedHolds(d: Disk, o: Options, c: Candidate, id: nat, k: nat, p: Point)
    requires Held(d, p) && InstallPlan(d, o, c, id).Proceed? && RecoveryPlan(d, o, c, id).writes == []
    ensures Held(Attempted(d, InstallPlan(d, o, c, id), k), p)
  {
    hide PartsVerified, RecoveryPlan, ReplaceWrites, SettleWrites, PutAll, Harmless;
    var all := InstallPlan(d, o, c, id).writes;
    var prefix := if k < |all| then all[..k] else all;
    assert all == [] + ReplaceWrites(d, c) + SettleWrites(d.point, c) by { PutNone(d); }
    assert all == ReplaceWrites(d, c) + SettleWrites(d.point, c);
    ReplacingHarmless(d, c, d.point, p, prefix);
    HarmlessWrites(d, prefix, p);
  }

  /** So does one that stops among its backups. */
  lemma PreparingHolds(d: Disk, o: Options, c: Candidate, id: nat, k: nat, p: Point)
    requires Held(d, p) && id != p.id && InstallPlan(d, o, c, id).Proceed? && k < |RecoveryPlan(d, o, c, id).writes|
    ensures Held(Attempted(d, InstallPlan(d, o, c, id), k), p)
  {
    hide PartsVerified, BackupWrites, Held, PutAll, ReplaceWrites, SettleWrites;
    var all, backups := InstallPlan(d, o, c, id).writes, BackupWrites(d, id, PartsToSave(d.config.flavor));
    BackupsArePreparing(d, id, PartsToSave(d.config.flavor));
    assert RecoveryPlan(d, o, c, id).writes == backups + [WritePoint(NewPoint(d, o, c, id))];
    assert forall i :: 0 <= i < k ==> all[..k][i] == backups[i];
    HarmlessWrites(d, all[..k], p);
  }

  /** Any attempt that does not replace the point leaves it held. */
  lemma OtherAttemptHolds(d: Disk, o: Options, c: Candidate, id: nat, k: nat, p: Point)
    requires Held(d, p) && id != p.id && !Replaces(d, o, c, id, k)
    ensures Held(Attempted(d, InstallPlan(d, o, c, id), k), p)
  {
    hide PartsVerified, BackupWrites, PutAll, ReplaceWrites, SettleWrites, NewPoint, SameInstallation;
    if InstallPlan(d, o, c, id).Proceed? {
      if RecoveryPlan(d, o, c, id).writes == [] {
        UnpreparedHolds(d, o, c, id, k, p);
      } else {
        PreparingHolds(d, o, c, id, k, p);
      }
    }
  }

  lemma RollbackHolds(d: Disk, o: Options, k: nat, p: Point)
    requires Held(d, p)
    ensures Held(Attempted(d, RollbackPlan(d, o), k), p)
  {
    hide PartsVerified;
    var plan := RollbackPlan(d, o);
    if plan.Proceed? {
      var prefix := if k < |plan.writes| then plan.writes[..k] else plan.writes;
      var q := d.point.value;
      assert forall i :: 0 <= i < |prefix| ==> prefix[i] == (RestoreWrites(d, q) + SettleWrites(d.point,
          q.candidate))[i];
      HarmlessWrites(d, prefix, p);
    }
  }

  /** The point on disk has another id than `n`. */
  predicate OtherPoint(d: Disk, n: nat) {
    d.point.Some? && d.point.value.id != n
  }

  lemma {:induction false} WritesKeepOther(d: Disk, writes: seq<FileWrite>, n: nat)
    requires OtherPoint(d, n) && forall i :: 0 <= i < |writes| && writes[i].WritePoint? ==> writes[i].point.id != n
    ensures OtherPoint(PutAll(d, writes), n)
    decreases |writes|
  {
    if writes != [] {
      WritesKeepOther(d, writes[..|writes| - 1], n);
    }
  }

  lemma OtherStaysOther(d: Disk, o: Options, e: Event, n: nat)
    requires OtherPoint(d, n) && (e.InstallAttempt? ==> e.id != n)
    ensures OtherPoint(After(d, o, e), n)
  {
    hide PartsVerified, BackupWrites;
    match e
    case InstallAttempt(convert, c, id, k) =>
      var plan := InstallPlan(d, o.(convert := convert), c, id);
      if plan.Proceed? {
        var prefix := if k < |plan.writes| then plan.writes[..k] else plan.writes;
        InstallPoints(d, o.(convert := convert), c, id, n);
        assert forall i :: 0 <= i < |prefix| ==> prefix[i] == plan.writes[i];
        WritesKeepOther(d, prefix, n);
      }
    case RollbackAttempt(k) =>
      var plan := RollbackPlan(d, o);
      if plan.Proceed? {
        var prefix := if k < |plan.writes| then plan.writes[..k] else plan.writes;
        assert forall i :: 0 <= i < |prefix| ==> prefix[i] == plan.writes[i];
        WritesKeepOther(d, prefix, n);
      }
    case WorkerUpdated(bytes) =>
    case EnrollmentChanged(config) =>
  }

  /** An installation writes no point but its own and the one it found. */
  lemma InstallPoints(d: Disk, o: Options, c: Candidate, id: nat, n: nat)
    requires OtherPoint(d, n) && id != n && InstallPlan(d, o, c, id).Proceed?
    ensures var writes := InstallPlan(d, o, c, id).writes;
            forall i :: 0 <= i < |writes| && writes[i].WritePoint? ==> writes[i].point.id != n
  {
    hide PartsVerified, BackupWrites;
    var prepare, writes := RecoveryPlan(d, o, c, id).writes, InstallPlan(d, o, c, id).writes;
    BackupsArePreparing(d, id, PartsToSave(d.config.flavor));
    WritesKeepOther(d, prepare, n);
    assert writes == prepare + ReplaceWrites(d, c) + SettleWrites(PutAll(d, prepare).point, c);
  }

  /** One event takes the point away exactly when it replaces it. */
  lemma EventKeepsPoint(d: Disk, o: Options, e: Event, p: Point)
    requires Held(d, p) && (e.InstallAttempt? ==> e.id != p.id)
    ensures if Replacing(d, o, e) then OtherPoint(After(d, o, e), p.id) else Held(After(d, o, e), p)
  {
    hide PartsVerified, InstallPlan, RollbackPlan, Replaces, Attempted;
    match e
    case InstallAttempt(convert, c, id, k) =>
      if Replacing(d, o, e) {
        ReplacedHolds(d, o.(convert := convert), c, id, k);
      } else {
        OtherAttemptHolds(d, o.(convert := convert), c, id, k, p);
      }
    case RollbackAttempt(k) => RollbackHolds(d, o, k, p);
    case WorkerUpdated(bytes) => HarmlessWrite(d, WriteWorker(bytes), p);
    case EnrollmentChanged(config) => HarmlessWrite(d, WriteConfig(config), p);
  }

  lemma {:induction false} RunPoint(d: Disk, o: Options, events: seq<Event>, p: Point)
    requires Held(d, p) && OtherIds(events, p)
    ensures if NeverReplaced(d, o, events) then Held(Run(d, o, events), p) else OtherPoint(Run(d, o, events), p.id)
    decreases |events|
  {
    hide Held, Replacing, After, OtherPoint;
    if events != [] {
      var n := |events| - 1;
      var front, e := events[..n], events[n];
      RunPoint(d, o, front, p);
      assert forall i :: 0 <= i < n ==> front[..i] == events[..i];
      if NeverReplaced(d, o, front) {
        EventKeepsPoint(Run(d, o, front), o, e, p);
        assert NeverReplaced(d, o, events) <==> !Replacing(Run(d, o, front), o, e);
      } else {
        var i :| 0 <= i < n && Replacing(Run(d, o, front[..i]), o, front[i]);
        assert events[..i] == front[..i] && events[i] == front[i];
        OtherStaysOther(Run(d, o, front), o, e, p.id);
      }
    }
  }

  /** Over every run, settled or not, the point is still there exactly when no attempt replaced it. */
  lemma RunKeepsPoint(d: Disk, o: Options, events: seq<Event>, p: Point)
    requires Held(d, p) && OtherIds(events, p)
    ensures Held(Run(d, o, events), p) <==> NeverReplaced(d, o, events)
  {
    hide PartsVerified, Run, Replacing;
    RunPoint(d, o, events, p);
  }

  /** The event stops before its last write. */
  predicate Crashes(d: Disk, o: Options, e: Event) {
    match e
    case InstallAttempt(convert, c, id, k) => var plan := InstallPlan(d, o.(convert := convert), c, id);
        plan.Proceed? ==> k < |plan.writes|
    case RollbackAttempt(k) => RollbackPlan(d, o).Proceed? ==> k < |RollbackPlan(d, o).writes|
    case _ => true
  }

  predicate AllCrash(d: Disk, o: Options, events: seq<Event>) {
    forall i :: 0 <= i < |events| ==> Crashes(Run(d, o, events[..i]), o, events[i])
  }

  predicate Unsettled(d: Disk) {
    d.point.Some? && !d.point.value.settled
  }

  lemma CrashStaysUnsettled(d: Disk, o: Options, e: Event)
    requires Unsettled(d) && Crashes(d, o, e)
    ensures Unsettled(After(d, o, e)) && !Replacing(d, o, e)
  {
    hide PartsVerified, BackupWrites;
    match e
    case InstallAttempt(convert, c, id, k) =>
      var plan := InstallPlan(d, o.(convert := convert), c, id);
      if plan.Proceed? {
        assert RecoveryPlan(d, o, c, id) == Proceed([]) && PutAll(d, []) == d;
        assert plan.writes == [] + ReplaceWrites(d, c) + SettleWrites(d.point, c);
        assert forall i :: 0 <= i < k ==> plan.writes[..k][i] == ReplaceWrites(d, c)[i];
        PlainKeepsPoint(d, plan.writes[..k]);
      }
    case RollbackAttempt(k) =>
      var plan := RollbackPlan(d, o);
      if plan.Proceed? {
        assert forall i :: 0 <= i < k ==> plan.writes[..k][i] == RestoreWrites(d, d.point.value)[i];
        PlainKeepsPoint(d, plan.writes[..k]);
      }
    case WorkerUpdated(bytes) =>
    case EnrollmentChanged(config) =>
  }

  /** Crashed retries, refused candidates and crashed rollbacks of an unsettled point never replace it. */
  lemma {:induction false} CrashesNeverReplace(d: Disk, o: Options, events: seq<Event>)
    requires Unsettled(d) && AllCrash(d, o, events)
    ensures NeverReplaced(d, o, events) && Unsettled(Run(d, o, events))
    decreases |events|
  {
    hide Crashes, Replacing, After, Unsettled;
    if events != [] {
      var n := |events| - 1;
      var front := events[..n];
      assert forall i :: 0 <= i < n ==> front[..i] == events[..i];
      CrashesNeverReplace(d, o, front);
      CrashStaysUnsettled(Run(d, o, front), o, events[n]);
    }
  }

  // ---------------------------------------------------------------- the completed rollback

  /** What the restoring writes leave. */
  lemma RestoredFiles(d: Disk, p: Point)
    ensures var e := PutAll(d, RestoreWrites(d, p));
            && e.worker == Some(PartOf(p, WorkerPart)) && e.unitFile == Some(PartOf(p, UnitPart))
            && e.host == (if PartOf(p, HostPart) != [] then Some(PartOf(p, HostPart)) else d.host)
            && e.prefixWorker == (if PartOf(p, PrefixWorkerPart) != [] then Some(PartOf(p, PrefixWorkerPart))
                else d.prefixWorker)
            && e.config == Restored(d.config, p) && e.point == d.point && e.backups == d.backups
  {
    var a := [WriteWorker(PartOf(p, WorkerPart))];
    var b := if PartOf(p, PrefixWorkerPart) != [] then [WritePrefixWorker(PartOf(p, PrefixWorkerPart))] else [];
    var c := if PartOf(p, HostPart) != [] then [WriteHost(PartOf(p, HostPart))] else [];
    var e := [WriteConfig(Restored(d.config, p)), WriteUnit(PartOf(p, UnitPart))];
    assert RestoreWrites(d, p) == a + b + c + e;
    PutAppend(d, a + b + c, e);
    PutAppend(d, a + b, c);
    PutAppend(d, a, b);
    PutOne(d, a[0]);
    if b != [] {
      PutOne(PutAll(d, a), b[0]);
    }
    if c != [] {
      PutOne(PutAll(d, a + b), c[0]);
    }
    PutTwo(PutAll(d, a + b + c), e[0], e[1]);
  }

  lemma PutOne(d: Disk, w: FileWrite)
    ensures PutAll(d, [w]) == Put(d, w)
  {
    assert [w][..0] == [];
  }

  lemma PutTwo(d: Disk, v: FileWrite, w: FileWrite)
    ensures PutAll(d, [v, w]) == Put(Put(d, v), w)
  {
    PutOne(d, v);
    assert [v, w] == [v] + [w];
    PutSnoc(d, [v], w);
  }

  lemma CompletedRollback(d: Disk, o: Options, p: Point)
    requires Held(d, p) && RollbackPlan(d, o).Proceed?
    ensures var e := PutAll(d, RollbackPlan(d, o).writes);
            && e.worker == Some(PartOf(p, WorkerPart)) && e.unitFile == Some(PartOf(p, UnitPart))
            && e.host == (if PartOf(p, HostPart) != [] then Some(PartOf(p, HostPart)) else d.host)
            && e.prefixWorker == (if PartOf(p, PrefixWorkerPart) != [] then Some(PartOf(p, PrefixWorkerPart))
                else d.prefixWorker)
            && e.config == Restored(d.config, p) && e.point == Some(p.(settled := true))
  {
    var q := d.point.value;
    var settle := SettleWrites(d.point, q.candidate);
    assert RestoreWrites(d, p) == RestoreWrites(d, q);
    PutAppend(d, RestoreWrites(d, p), settle);
    RestoredFiles(d, p);
    PutOne(PutAll(d, RestoreWrites(d, p)), settle[0]);
  }

  /** An attempt on a managed installation that gets as far as publishing its recovery point, completed or not; then
      any installations and rollbacks, crashed, refused or completed, worker updates and enrollment changes, of which
      none replaces that point; then one rollback that completes: the needed parts have their original bytes again,
      so has a prefix worker that was not empty, flavor, mode and management are the original ones, and everything
      else is current. */
  lemma RollbackRestoresOriginal(d0: Disk, o: Options, c: Candidate, id: nat, k: nat, events: seq<Event>)
    requires Replaces(d0, o, c, id, k) && OtherIds(events, NewPoint(d0, o, c, id))
    requires var first := Attempted(d0, InstallPlan(d0, o, c, id), k);
             NeverReplaced(first, o, events) && RollbackPlan(Run(first, o, events), o).Proceed?
    ensures var d := Run(Attempted(d0, InstallPlan(d0, o, c, id), k), o, events);
            var e := PutAll(d, RollbackPlan(d, o).writes);
            && e.worker == d0.worker && e.unitFile == d0.unitFile
            && e.host == (if d0.config.flavor == General then d0.host else d.host)
            && e.prefixWorker ==
               (if d0.prefixWorker.Some? && d0.prefixWorker.value != [] then d0.prefixWorker else d.prefixWorker)
            && e.config == RestoredFrom(d.config, d0.config)
            && e.point.Some? && e.point.value.settled
  {
    hide PartsVerified, RollbackPlan, Run, ReplaceWrites, NeverReplaced, Attempted;
    var p := NewPoint(d0, o, c, id);
    var first := Attempted(d0, InstallPlan(d0, o, c, id), k);
    ReplacedHolds(d0, o, c, id, k);
    RunKeepsPoint(first, o, events, p);
    CompletedRollback(Run(first, o, events), o, p);
    RollbackProceedsExactly(Run(first, o, events), o, p);
    SavedParts(d0, d0.config.flavor);
  }

  /** The same after any number of crashed retries, refused candidates and crashed rollbacks, without a further
      condition. */
  lemma CrashesAreRolledBack(d0: Disk, o: Options, c: Candidate, id: nat, k: nat, events: seq<Event>)
    requires Replaces(d0, o, c, id, k) && OtherIds(events, NewPoint(d0, o, c, id))
        && k < |InstallPlan(d0, o, c, id).writes|
    requires var first := Attempted(d0, InstallPlan(d0, o, c, id), k);
             AllCrash(first, o, events) && RollbackPlan(Run(first, o, events), o).Proceed?
    ensures var d := Run(Attempted(d0, InstallPlan(d0, o, c, id), k), o, events);
            var e := PutAll(d, RollbackPlan(d, o).writes);
            && e.worker == d0.worker && e.unitFile == d0.unitFile
            && e.host == (if d0.config.flavor == General then d0.host else d.host)
            && e.prefixWorker ==
               (if d0.prefixWorker.Some? && d0.prefixWorker.value != [] then d0.prefixWorker else d.prefixWorker)
            && e.config == RestoredFrom(d.config, d0.config)
            && e.point.Some? && e.point.value.settled
  {
    hide PartsVerified, RollbackPlan, Run, ReplaceWrites, NeverReplaced, AllCrash;
    var first := Attempted(d0, InstallPlan(d0, o, c, id), k);
    StoppedIsUnsettled(d0, o, c, id, k);
    CrashesNeverReplace(first, o, events);
    RollbackRestoresOriginal(d0, o, c, id, k, events);
  }

  /** An attempt that published its point and stopped before settling it leaves it unsettled. */
  lemma StoppedIsUnsettled(d: Disk, o: Options, c: Candidate, id: nat, k: nat)
    requires Replaces(d, o, c, id, k) && k < |InstallPlan(d, o, c, id).writes|
    ensures Unsettled(Attempted(d, InstallPlan(d, o, c, id), k))
  {
    hide PartsVerified, PutAll, BackupWrites;
    var prepare, all, p := RecoveryPlan(d, o, c, id).writes, InstallPlan(d, o, c, id).writes, NewPoint(d, o, c, id);
    var ready, rest := PutAll(d, prepare), all[|prepare|..k];
    assert ready.point == Some(p) by { PutSnoc(d, BackupWrites(d, id, PartsToSave(d.config.flavor)), WritePoint(p)); }
    assert all == prepare + ReplaceWrites(d, c) + SettleWrites(ready.point, c) && |SettleWrites(ready.point, c)| == 1;
    assert all[..k] == prepare + rest;
    PutAppend(d, prepare, rest);
    assert forall i :: 0 <= i < |rest| ==> rest[i] == ReplaceWrites(d, c)[i];
    PlainKeepsPoint(ready, rest);
  }

  lemma SavedParts(d: Disk, flavor: Flavor)
    requires !MissingPart(d, flavor)
    ensures var files := SavedFiles(d, flavor);
            && WorkerPart in files && Some(files[WorkerPart]) == d.worker && UnitPart in files
                && Some(files[UnitPart]) == d.unitFile
            && (HostPart in files <==> flavor == General) && (flavor == General ==> Some(files[HostPart]) == d.host)
            && (PrefixWorkerPart in files <==> d.prefixWorker.Some?)
                && (d.prefixWorker.Some? ==> Some(files[PrefixWorkerPart]) == d.prefixWorker)
  {
    assert FileOf(d, WorkerPart).Some? && FileOf(d, UnitPart).Some?;
  }

  /** When the rollback of such a point goes through: exactly when the enrollment is still the same one, no saved
      part that is needed is empty, and the saved executables are still accepted. */
  lemma RollbackProceedsExactly(d: Disk, o: Options, p: Point)
    requires Held(d, p)
    ensures RollbackPlan(d, o).Proceed? <==>
              && p.managed && p.stateDir == o.stateDir && !EmptyPart(p)
              && o.runnable(PartOf(p, WorkerPart)) && (p.flavor == General ==> o.runnable(PartOf(p, HostPart)))
              && d.config.agentId == p.agentId && d.config.controllerId == p.controllerId
                  && d.config.stateDir == o.stateDir
  {
  }

  /** A completed installation settles its point, so that another candidate may follow. */
  lemma CompletedInstallSettles(d: Disk, o: Options, c: Candidate, id: nat)
    requires InstallPlan(d, o, c, id).Proceed?
    ensures var e := PutAll(d, InstallPlan(d, o, c, id).writes);
            && e.worker == Some(c.worker) && e.prefixWorker == Some(c.worker) && e.unitFile == Some(c.unitText)
            && e.config == Managed(d.config, c.flavor) && (e.point.Some? ==> e.point.value.settled)
  {
    hide PartsVerified, BackupWrites, PutAll;
    var prepare := RecoveryPlan(d, o, c, id).writes;
    var ready := PutAll(d, prepare);
    var settle := SettleWrites(ready.point, c);
    PreparedPoint(d, o, c, id);
    PutAppend(d, prepare + ReplaceWrites(d, c), settle);
    PutAppend(d, prepare, ReplaceWrites(d, c));
    ReplacedFiles(ready, d, c);
    PlainKeepsPoint(ready, ReplaceWrites(d, c));
    var replaced := PutAll(ready, ReplaceWrites(d, c));
    if settle != [] {
      PutOne(replaced, settle[0]);
    } else {
      assert PutAll(replaced, []) == replaced by { PutNone(replaced); }
    }
  }

  lemma PutNone(d: Disk)
    ensures PutAll(d, []) == d
  {
  }

  lemma PreparedPoint(d: Disk, o: Options, c: Candidate, id: nat)
    requires RecoveryPlan(d, o, c, id).Proceed?
    ensures var p := PutAll(d, RecoveryPlan(d, o, c, id).writes).point; p.Some? ==>
            p.value.settled || p.value.candidate == c
  {
    var writes := RecoveryPlan(d, o, c, id).writes;
    if writes != [] {
      PutSnoc(d, BackupWrites(d, id, PartsToSave(d.config.flavor)), WritePoint(NewPoint(d, o, c, id)));
    }
  }

  lemma ReplacedFiles(ready: Disk, d: Disk, c: Candidate)
    ensures var e := PutAll(ready, ReplaceWrites(d, c));
            && e.worker == Some(c.worker) && e.prefixWorker == Some(c.worker) && e.unitFile == Some(c.unitText)
            && e.config == Managed(d.config, c.flavor)
  {
    var host := if c.flavor == General then [WriteHost(c.host)] else [];
    var workers, rest := [WritePrefixWorker(c.worker), WriteWorker(c.worker)],
        [WriteConfig(Managed(d.config, c.flavor)), WriteUnit(c.unitText)];
    assert ReplaceWrites(d, c) == host + workers + rest;
    PutAppend(ready, host + workers, rest);
    PutAppend(ready, host, workers);
    PutTwo(PutAll(ready, host), workers[0], workers[1]);
    PutTwo(PutAll(ready, host + workers), rest[0], rest[1]);
  }

  // ---------------------------------------------------------------- a settled point replaced

  const HERE := Options("s", false, (b: Bytes) => true)
  const BEFORE := Disk(Some([1]), None, None, Some([2]), Config("a", "c", "s", SparkLight, "direct", true, "e"), None,
      map[])
  const NEXT := Candidate([3], [], [4], SparkLight)

  /** The candidate was installed to the end. */
  function Installed(): Disk {
    PutAll(BEFORE, InstallPlan(BEFORE, HERE, NEXT, 1).writes)
  }

  lemma InstalledState()
    ensures InstallPlan(BEFORE, HERE, NEXT, 1).Proceed? && Replaces(BEFORE, HERE, NEXT, 1,
        |InstallPlan(BEFORE, HERE, NEXT, 1).writes|)
    ensures var d := Installed();
            && d.worker == d.prefixWorker == Some([3]) && d.unitFile == Some([4]) && d.config == BEFORE.config
            && d.point.Some? && d.point.value.settled && Held(d, NewPoint(BEFORE, HERE, NEXT, 1))
  {
    hide PartsVerified, BackupWrites;
    ReplacedHolds(BEFORE, HERE, NEXT, 1, |InstallPlan(BEFORE, HERE, NEXT, 1).writes|);
    CompletedInstallSettles(BEFORE, HERE, NEXT, 1);
  }

  /** A rollback that stops after its first write leaves the old worker beside the new unit. */
  lemma MixedState()
    ensures var d := After(Installed(), HERE, RollbackAttempt(1));
            && d == Installed().(worker := Some([1]))
  {
    hide PartsVerified, BackupWrites, PutAll, Installed, InstallPlan;
    InstalledState();
    var d, p := Installed(), NewPoint(BEFORE, HERE, NEXT, 1);
    SavedParts(BEFORE, SparkLight);
    RollbackProceedsExactly(d, HERE, p);
    var writes := RollbackPlan(d, HERE).writes;
    assert writes[0] == WriteWorker([1]) && |writes| > 1;
    assert writes[..1] == [WriteWorker([1])];
    PutOne(d, WriteWorker([1]));
  }

  /** The point of a completed installation is lost to the next attempt: after a crashed rollback, the same candidate
      backs up the mixture, and the rollback that completes afterwards leaves the candidate's unit and not the
      original one. */
  lemma SettledPointReplaced()
    ensures var d := Run(Installed(), HERE, [RollbackAttempt(1), InstallAttempt(false, NEXT, 2, 4)]);
            && Replacing(After(Installed(), HERE, RollbackAttempt(1)), HERE, InstallAttempt(false, NEXT, 2, 4))
            && RollbackPlan(d, HERE).Proceed?
            && PutAll(d, RollbackPlan(d, HERE).writes).unitFile == Some([4]) && BEFORE.unitFile == Some([2])
  {
    hide PartsVerified, PutAll, Installed, RollbackPlan, BackupWrites;
    InstalledState();
    MixedState();
    var mixed, again := After(Installed(), HERE, RollbackAttempt(1)), InstallAttempt(false, NEXT, 2, 4);
    assert HERE.(convert := false) == HERE;
    FourWrites(mixed, HERE, NEXT, 2);
    assert Replaces(mixed, HERE, NEXT, 2, 4);
    var d := After(mixed, HERE, again);
    assert [RollbackAttempt(1), again][..1] == [RollbackAttempt(1)];
    RunTwo(Installed(), HERE, RollbackAttempt(1), again);
    ReplacedHolds(mixed, HERE, NEXT, 2, 4);
    KeptConfig(mixed, HERE, NEXT, 2);
    SavedParts(mixed, SparkLight);
    RollbackProceedsExactly(d, HERE, NewPoint(mixed, HERE, NEXT, 2));
    CompletedRollback(d, HERE, NewPoint(mixed, HERE, NEXT, 2));
  }

  lemma RunTwo(d: Disk, o: Options, e: Event, f: Event)
    ensures Run(d, o, [e, f]) == After(After(d, o, e), o, f)
  {
    hide After;
    assert [e, f][..1] == [e] && [e][..0] == [];
    assert Run(d, o, [e]) == After(Run(d, o, []), o, e);
  }

  /** With every part of the light flavor present, preparing takes three backups and the point. */
  lemma FourWrites(d: Disk, o: Options, c: Candidate, id: nat)
    requires d.config.flavor == SparkLight && d.worker.Some? && d.unitFile.Some? && d.prefixWorker.Some?
    requires RecoveryPlan(d, o, c, id).Proceed? && RecoveryPlan(d, o, c, id).writes != []
    ensures |RecoveryPlan(d, o, c, id).writes| == 4
  {
    hide PartsVerified;
    var parts := PartsToSave(SparkLight);
    BackupPrefix(d, id, parts, 0);
    BackupPrefix(d, id, parts, 1);
    BackupPrefix(d, id, parts, 2);
    NoBackups(d, id, parts);
    assert parts[..3] == parts;
  }

  lemma KeptConfig(d: Disk, o: Options, c: Candidate, id: nat)
    requires RecoveryPlan(d, o, c, id).Proceed? && Replaces(d, o, c, id, |RecoveryPlan(d, o, c, id).writes|)
    ensures Attempted(d, InstallPlan(d, o, c, id), |RecoveryPlan(d, o, c, id).writes|).config == d.config
  {
    hide PartsVerified, BackupWrites, PutAll;
    var prepare, all := RecoveryPlan(d, o, c, id).writes, InstallPlan(d, o, c, id).writes;
    assert all[..|prepare|] == prepare && |prepare| < |all|;
    BackupsArePreparing(d, id, PartsToSave(d.config.flavor));
    PreparingKeepsFiles(d, prepare);
  }

  /** An empty prefix worker is saved and not put back: the candidate's worker stays in its place. */
  lemma EmptyPrefixWorkerNotRestored()
    ensures var d0 := BEFORE.(prefixWorker := Some([])); var d := PutAll(d0, InstallPlan(d0, HERE, NEXT, 1).writes);
            && InstallPlan(d0, HERE, NEXT, 1).Proceed? && PrefixWorkerPart in NewPoint(d0, HERE, NEXT, 1).files
            && RollbackPlan(d, HERE).Proceed? && PutAll(d, RollbackPlan(d, HERE).writes).prefixWorker == Some([3])
  {
    hide PartsVerified, BackupWrites, PutAll, RollbackPlan;
    var d0 := BEFORE.(prefixWorker := Some([]));
    var k, p := |InstallPlan(d0, HERE, NEXT, 1).writes|, NewPoint(d0, HERE, NEXT, 1);
    var d := PutAll(d0, InstallPlan(d0, HERE, NEXT, 1).writes);
    ReplacedHolds(d0, HERE, NEXT, 1, k);
    CompletedInstallSettles(d0, HERE, NEXT, 1);
    SavedParts(d0, SparkLight);
    RollbackProceedsExactly(d, HERE, p);
    CompletedRollback(d, HERE, p);
  }

  // ---------------------------------------------------------------- the installer

  datatype Ending = Finished | Interrupted | Refused(why: Refusal)

  /** The files of the machine, with a number of writes it will still complete before something goes wrong. */
  class Machine {
    var worker: Option<Bytes>
    var prefixWorker: Option<Bytes>
    var host: Option<Bytes>
    var unitFile: Option<Bytes>
    var config: Config
    var point: Option<Point>
    var backups: map<(nat, Part), Bytes>
    var left: nat
    ghost var done: seq<FileWrite>
    ghost var first: Disk

    function Files(): Disk
      reads this
    {
      Disk(worker, prefixWorker, host, unitFile, config, point, backups)
    }

    /** Everything written since `first` is recorded in `done`. */
    ghost predicate Tracked()
      reads this
    {
      Files() == PutAll(first, done)
    }

    /** One atomic write, if it still succeeds. */
    method Write(w: FileWrite) returns (ok: bool)
      requires Tracked()
      modifies this
      ensures Tracked() && first == old(first)
      ensures ok <==> old(left) > 0
      ensures ok ==> done == old(done) + [w] && Files() == Put(old(Files()), w) && left == old(left) - 1
      ensures !ok ==> done == old(done) && Files() == old(Files())
    {
      hide PutAll;
      if left == 0 {
        return false;
      }
      PutSnoc(first, done, w);
      match w {
        case WriteBackup(id, part, bytes) => backups := backups[(id, part) := bytes];
        case WritePoint(p) => point := Some(p);
        case WriteHost(bytes) => host := Some(bytes);
        case WritePrefixWorker(bytes) => prefixWorker := Some(bytes);
        case WriteWorker(bytes) => worker := Some(bytes);
        case WriteConfig(c) => config := c;
        case WriteUnit(bytes) => unitFile := Some(bytes);
      }
      left, done := left - 1, done + [w];
      return true;
    }

    /** The backups of the listed parts, then the point that names them. */
    method SaveParts(parts: seq<Part>, p: Point) returns (ok: bool)
      requires Tracked()
      modifies this
      ensures Tracked() && first == old(first)
      ensures var plan := BackupWrites(old(Files()), p.id, parts) + [WritePoint(p)];
              old(done) <= done <= old(done) + plan && (ok <==> done == old(done) + plan)
    {
      hide PutAll, BackupWrites;
      ghost var before := Files();
      ghost var all := BackupWrites(before, p.id, parts) + [WritePoint(p)];
      var i := 0;
      assert BackupWrites(before, p.id, parts[..0]) == [] by { NoBackups(before, p.id, parts); }
      assert done == old(done) + BackupWrites(before, p.id, parts[..0]);
      while i < |parts|
        invariant 0 <= i <= |parts| && Tracked() && first == old(first)
        invariant done == old(done) + BackupWrites(before, p.id, parts[..i])
        invariant forall part :: FileOf(Files(), part) == FileOf(before, part)
      {
        BackupPrefix(before, p.id, parts, i);
        var bytes := FileOf(Files(), parts[i]);
        if bytes.Some? {
          assert old(done) + (BackupWrites(before, p.id, parts[..i]) + [WriteBackup(p.id, parts[i],
              bytes.value)]) == done + [WriteBackup(p.id, parts[i], bytes.value)];
          var saved := Write(WriteBackup(p.id, parts[i], bytes.value));
          if !saved {
            PrefixOfPlan(old(done), BackupWrites(before, p.id, parts[..i]), BackupWrites(before, p.id, parts),
                [WritePoint(p)]);
            return false;
          }
        }
        i := i + 1;
      }
      assert parts[..i] == parts;
      assert old(done) + all == done + [WritePoint(p)];
      ok := Write(WritePoint(p));
    }

    /** The next write of the plan `all`. */
    method WriteNext(w: FileWrite, ghost all: seq<FileWrite>) returns (ok: bool)
      requires Tracked() && |done| < |all| && done == all[..|done|] && all[|done|] == w
      modifies this
      ensures Tracked() && first == old(first) && |done| <= |all| && done == all[..|done|]
      ensures if ok then |done| == |old(done)| + 1 && Files() == Put(old(Files()), w)
              else done == old(done) && Files() == old(Files())
    {
      ok := Write(w);
    }

    /** The recovery point is prepared, or the reason found why nothing may be replaced. */
    method SaveRecovery(o: Options, c: Candidate, id: nat) returns (r: Ending)
      requires Tracked() && done == []
      modifies this
      ensures Tracked() && first == old(first)
      ensures match RecoveryPlan(old(Files()), o, c, id)
              case Refuse(why) => r == Refused(why) && done == []
              case Proceed(writes) => done <= writes && (r == Finished || r == Interrupted) && (r == Finished <==>
                  done == writes)
    {
      if point.Some? && !point.value.settled {
        var prior := point.value;
        if prior.agentId != config.agentId || prior.controllerId != config.controllerId
            || prior.stateDir != o.stateDir {
          return Refused(OtherBinding);
        }
        if prior.candidate != c {
          return Refused(OtherCandidate);
        }
        var ok := VerifyParts(prior);
        return if ok then Finished else Refused(PartsCorrupt);
      }
      if worker.None? {
        return Finished;
      }
      var sameWorker := worker == Some(c.worker) && config.flavor == c.flavor;
      if !config.managed && !sameWorker {
        return Refused(OrphanWorker);
      }
      var same := sameWorker;
      if c.flavor == SparkLight && config.managed {
        same := same && config.runtimeMode == "direct";
      }
      same := same && (unitFile.None? || unitFile == Some(c.unitText));
      if c.flavor == General {
        same := same && host == Some(c.host);
      }
      if same {
        return Finished;
      }
      if !o.runnable(worker.value) {
        return Refused(WorkerInvalid);
      }
      if worker.None? || unitFile.None? || (config.flavor == General && host.None?) {
        return Refused(BackupIncomplete);
      }
      var p := Point(id, config.agentId, config.controllerId, o.stateDir, config.flavor, config.runtimeMode,
          config.managed, SavedFiles(Files(), config.flavor), c, false);
      var ok := SaveParts(PartsToSave(config.flavor), p);
      return if ok then Finished else Interrupted;
    }

    /** Every needed part is recorded, and every recorded part still has its bytes. */
    method VerifyParts(p: Point) returns (ok: bool)
      ensures ok <==> PartsVerified(Files(), p)
    {
      if WorkerPart !in p.files || UnitPart !in p.files || (p.flavor == General && HostPart !in p.files) {
        assert Needed(p.flavor, WorkerPart) && Needed(p.flavor, UnitPart)
            && (p.flavor == General ==> Needed(p.flavor, HostPart));
        return false;
      }
      var todo := p.files.Keys;
      while todo != {}
        invariant todo <= p.files.Keys
        invariant forall part :: part in p.files.Keys - todo ==>
             (p.id, part) in backups && backups[(p.id, part)] == p.files[part]
        decreases |todo|
      {
        var part :| part in todo;
        if (p.id, part) !in backups || backups[(p.id, part)] != p.files[part] {
          return false;
        }
        todo := todo - {part};
      }
      return true;
    }

    /** Installing a candidate: the recovery point, the new files in order, and once the service runs the settlement. */
    method InstallLinux(o: Options, c: Candidate, id: nat) returns (r: Ending)
      modifies this
      ensures first == old(Files()) && Tracked()
      ensures match InstallPlan(old(Files()), o, c, id)
              case Refuse(why) => r == Refused(why) && Files() == old(Files())
              case Proceed(writes) => done <= writes && (r == Finished || r == Interrupted) && (r == Finished <==>
                  done == writes)
    {
      hide RecoveryPlan, PutAll;
      first, done := Files(), [];
      PutNone(first);
      if config.stateDir != o.stateDir {
        return Refused(StateElsewhere);
      }
      if config.managed && config.flavor != c.flavor && !o.convert {
        return Refused(FlavorPreserved);
      }
      var latest := config;
      r := SaveRecovery(o, c, id);
      if r.Refused? {
        return;
      }
      ghost var prepare := RecoveryPlan(first, o, c, id).writes;
      ghost var all := InstallPlan(first, o, c, id).writes;
      assert prepare <= all;
      if r.Interrupted? {
        assert done <= all && done != all;
        return;
      }
      assert all == prepare + ReplaceWrites(first, c) + SettleWrites(point, c);
      r := Replace(c, latest, all, |prepare|);
    }

    /** The new files, in the order of the source: first the supervisor of the general flavor. */
    method Replace(c: Candidate, latest: Config, ghost all: seq<FileWrite>, ghost n: nat) returns (r: Ending)
      requires Tracked() && latest == first.config && n <= |all| && done == all[..n]
      requires all[n..] == ReplaceWrites(first, c) + SettleWrites(point, c)
      modifies this
      ensures Tracked() && first == old(first) && done <= all && (r == Finished || r == Interrupted)
          && (r == Finished <==> done == all)
    {
      hide PutAll;
      ghost var settle := SettleWrites(point, c);
      assert forall i :: 0 <= i < |all| - n ==> all[n + i] == (ReplaceWrites(first, c) + settle)[i];
      if c.flavor == General {
        var hosted := WriteNext(WriteHost(c.host), all);
        if !hosted {
          return Interrupted;
        }
      }
      assert all[|done|..] == FileWrites(c, latest) + settle;
      r := ReplaceFiles(c, latest, all);
    }

    /** Both worker slots, the configuration, the unit. */
    method ReplaceFiles(c: Candidate, latest: Config, ghost all: seq<FileWrite>) returns (r: Ending)
      requires Tracked() && |done| <= |all| && done == all[..|done|]
          && all[|done|..] == FileWrites(c, latest) + SettleWrites(point, c)
      modifies this
      ensures Tracked() && first == old(first) && done <= all && (r == Finished || r == Interrupted)
          && (r == Finished <==> done == all)
    {
      hide PutAll, Managed;
      ghost var n, settle := |done|, SettleWrites(point, c);
      assert forall i :: 0 <= i < |all| - n ==> all[n + i] == (FileWrites(c, latest) + settle)[i];
      var ok := WriteNext(WritePrefixWorker(c.worker), all);
      if !ok {
        return Interrupted;
      }
      ok := WriteNext(WriteWorker(c.worker), all);
      if !ok {
        return Interrupted;
      }
      ok := WriteNext(WriteConfig(Managed(latest, c.flavor)), all);
      if !ok {
        return Interrupted;
      }
      ok := WriteNext(WriteUnit(c.unitText), all);
      if !ok {
        return Interrupted;
      }
      assert all[|done|..] == settle;
      r := Settle(c, all);
    }

    /** The point of exactly this candidate is settled. */
    method Settle(c: Candidate, ghost all: seq<FileWrite>) returns (r: Ending)
      requires Tracked() && |done| <= |all| && done == all[..|done|] && all[|done|..] == SettleWrites(point, c)
      modifies this
      ensures Tracked() && first == old(first) && done <= all && (r == Finished || r == Interrupted)
          && (r == Finished <==> done == all)
    {
      hide PutAll;
      if point.None? || point.value.candidate != c {
        assert all == done + [];
        return Finished;
      }
      assert all == done + [WritePoint(point.value.(settled := true))];
      var ok := WriteNext(WritePoint(point.value.(settled := true)), all);
      return if ok then Finished else Interrupted;
    }

    /** Taking the installation back from its recovery point. */
    method RollbackLinux(o: Options) returns (r: Ending)
      modifies this
      ensures first == old(Files()) && Tracked()
      ensures match RollbackPlan(old(Files()), o)
              case Refuse(why) => r == Refused(why) && Files() == old(Files())
              case Proceed(writes) => done <= writes && (r == Finished || r == Interrupted) && (r == Finished <==>
                  done == writes)
    {
      hide PartsVerified, PutAll;
      first, done := Files(), [];
      PutNone(first);
      if point.None? {
        return Refused(NoPoint);
      }
      var p := point.value;
      if p.stateDir != o.stateDir || !p.managed {
        return Refused(PointInvalid);
      }
      var verified := VerifyParts(p);
      if !verified {
        return Refused(PartsCorrupt);
      }
      var oldWorker, oldUnit := PartOf(p, WorkerPart), PartOf(p, UnitPart);
      var oldHost, oldPrefix := PartOf(p, HostPart), PartOf(p, PrefixWorkerPart);
      if oldWorker == [] || oldUnit == [] || (p.flavor == General && oldHost == []) {
        return Refused(PointIncomplete);
      }
      if !o.runnable(oldWorker) || (p.flavor == General && !o.runnable(oldHost)) {
        return Refused(WorkerInvalid);
      }
      if config.agentId != p.agentId || config.controllerId != p.controllerId || config.stateDir != o.stateDir {
        return Refused(OtherEnrollment);
      }
      r := Restore(p, RollbackPlan(first, o).writes);
    }

    /** The saved files, in the order of the source. */
    method Restore(p: Point, ghost all: seq<FileWrite>) returns (r: Ending)
      requires Tracked() && done == [] && first == Files() && point == Some(p)
          && all == RestoreWrites(first, p) + SettleWrites(point, p.candidate)
      modifies this
      ensures Tracked() && first == old(first) && done <= all && (r == Finished || r == Interrupted)
          && (r == Finished <==> done == all)
    {
      hide PutAll;
      var ok := WriteNext(WriteWorker(PartOf(p, WorkerPart)), all);
      if !ok {
        return Interrupted;
      }
      if PartOf(p, PrefixWorkerPart) != [] {
        ok := WriteNext(WritePrefixWorker(PartOf(p, PrefixWorkerPart)), all);
        if !ok {
          return Interrupted;
        }
      }
      if PartOf(p, HostPart) != [] {
        ok := WriteNext(WriteHost(PartOf(p, HostPart)), all);
        if !ok {
          return Interrupted;
        }
      }
      ok := WriteNext(WriteConfig(config.(flavor := p.flavor, runtimeMode := p.runtimeMode, managed := p.managed)),
          all);
      if !ok {
        return Interrupted;
      }
      ok := WriteNext(WriteUnit(PartOf(p, UnitPart)), all);
      if !ok {
        return Interrupted;
      }
      r := Settle(p.candidate, all);
    }
  }

  lemma NoBackups(d: Disk, id: nat, parts: seq<Part>)
    ensures BackupWrites(d, id, parts[..0]) == []
  {
  }

  lemma BackupPrefix(d: Disk, id: nat, parts: seq<Part>, i: nat)
    requires i < |parts|
    ensures BackupWrites(d, id, parts[..i + 1]) ==
            BackupWrites(d, id, parts[..i]) + (if FileOf(d, parts[i]).Some?
                then [WriteBackup(id, parts[i], FileOf(d, parts[i]).value)] else [])
    ensures BackupWrites(d, id, parts[..i]) < BackupWrites(d, id, parts)
        || BackupWrites(d, id, parts[..i]) == BackupWrites(d, id, parts)
    decreases |parts|
  {
    assert parts[..i + 1][..i] == parts[..i];
    if i + 1 < |parts| {
      var rest := parts[..|parts| - 1];
      assert rest[..i] == parts[..i] && rest[..i + 1] == parts[..i + 1];
      BackupPrefix(d, id, rest, i);
    } else {
      assert parts[..i + 1] == parts;
    }
  }

  lemma PrefixOfPlan(done: seq<FileWrite>, some: seq<FileWrite>, all: seq<FileWrite>, last: seq<FileWrite>)
    requires some <= all && last != []
    ensures done + some <= done + (all + last) && done + some != done + (all + last)
  {
  }
}
