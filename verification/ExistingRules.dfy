/**
  The predicates with which the broker judges what the existing coordinator says
  (`internal/spark/existing_coordinator.go`): exact receipts, shutdown witnesses,
  and physical compatibility of successive snapshots.
*/
module ExistingRules {
  import opened SparkTypes

  const MAX_GENERATION := 9007199254740991

  predicate LowerHex(s: string, length: nat) {
    |s| == length && forall k :: 0 <= k < |s| ==> '0' <= s[k] <= '9' || 'a' <= s[k] <= 'f'
  }

  predicate BareHash(id: PhysicalId) {
    id.DigestOf? || (id.OtherText? && LowerHex(id.text, 64))
  }

  predicate LegacyProfile(id: ProfileId) {
    id == "qwen-existing-observation" || id == "gpt-oss-120b-existing-configured"
  }

  predicate ValidDeclaration(id: ProfileId, declaration: Option<string>) {
    declaration.None? || (LegacyProfile(id) && LowerHex(declaration.value, 64))
  }

  function ValueGeneration(g: Option<int>): int {
    if g.None? then -1 else g.value
  }

  function WitnessPhysical(w: Witness): Physical {
    Physical(w.runId, w.owner, w.containerId, w.containerCreated, w.enginePid, w.engineBirth, w.legacyDeclaration)
  }

  /** The result carries a witness that exactly this run released all its resources. */
  predicate ValidShutdown(result: Result, profile: ProfileId, runId: Option<string>, generation: int) {
    && result.shutdownVerified && !result.processActive
    && (result.state == STOPPED || result.state == BLOCKED || result.state == FAILED)
    && result.shutdownWitness.Some?
    && var w := result.shutdownWitness.value;
       && w.modelId == profile && w.generation == generation && w.runId == runId && w.attempt == result.attempt
       && result.instanceIdentity == w.instanceIdentity && ValidDeclaration(profile, w.legacyDeclaration)
       && if runId.None? then
            && w.kind == NoOwnedRun && w.instanceIdentity == NoPhysicalId
            && w.owner.None? && w.containerId.None? && w.containerCreated.None? && w.enginePid.None?
                && w.engineBirth.None? && w.legacyDeclaration.None?
          else
            && w.kind == ExactRunResourcesReleased && BareHash(w.instanceIdentity)
            && w.instanceIdentity == DigestOf(WitnessPhysical(w))
  }

  predicate KnownKept<T(==)>(before: Option<T>, after: Option<T>) {
    before.None? || before == after
  }

  predicate PhysicalKept(before: Physical, after: Physical) {
    && KnownKept(before.owner, after.owner)
    && KnownKept(before.containerId, after.containerId)
    && KnownKept(before.containerCreated, after.containerCreated)
    && KnownKept(before.enginePid, after.enginePid)
    && KnownKept(before.engineBirth, after.engineBirth)
    && KnownKept(before.legacyDeclaration, after.legacyDeclaration)
  }

  predicate SameRunOf(previous: Snapshot, current: Snapshot) {
    && previous.result.runId == current.result.runId
    && previous.result.attempt == current.result.attempt
    && ValueGeneration(previous.result.generation) == ValueGeneration(current.result.generation)
  }

  /** The current snapshot shows the same run and forgets nothing physical that the previous one knew. */
  predicate Compatible(previous: Option<Snapshot>, current: Option<Snapshot>) {
    previous.None? ||
    (&& current.Some? && SameRunOf(previous.value, current.value)
     && (previous.value.instance.None? ||
         (current.value.instance.Some? && PhysicalKept(previous.value.instance.value, current.value.instance.value))))
  }

  predicate ReadyPhysical(s: Snapshot, p: Profile) {
    && s.instance.Some? && s.instance.value.owner.Some? && s.result.runId.Some?
    && ValidDeclaration(p.id, s.instance.value.legacyDeclaration)
    && !(LegacyProfile(p.id) && s.instance.value.legacyDeclaration.None?)
    && var i := s.instance.value;
       var unitName := if p.id == "qwen-existing-observation" then "spark-sglang.service"
                       else "spark-v4-" + p.id + "@" + s.result.runId.value + ".service";
       && i.owner.value.ownerUnit == unitName && LowerHex(i.owner.value.invocationId, 32)
       && i.owner.value.pid > 0 && i.owner.value.birth != ""
       && i.containerId.Some? && LowerHex(i.containerId.value, 64)
       && i.containerCreated.Some? && i.containerCreated.value != ""
       && i.enginePid.Some? && i.enginePid.value > 0
       && i.engineBirth.Some? && i.engineBirth.value != ""
  }

  /** A bounded, self-consistent snapshot taken within the last five seconds. */
  predicate ValidSnapshot(s: Snapshot, p: Profile, now: Time) {
    var generation := ValueGeneration(s.result.generation);
    var nowMs := now / 1_000_000;
    && (s.instance.None? || ValidDeclaration(p.id, s.instance.value.legacyDeclaration))
    && s.result.modelId == p.id && LowerHex(s.profileRevision, 64)
    && (s.result.instanceIdentity == NoPhysicalId || BareHash(s.result.instanceIdentity))
    && 0 <= generation <= MAX_GENERATION
    && nowMs - 5000 <= s.observedAtMs <= nowMs + 1000
    && s.result.state != NoBackendState
    && (s.result.apiReady ==> s.result.state == READY && s.result.processActive && ReadyPhysical(s, p))
    && (s.result.runId.Some? ==> LowerHex(s.result.runId.value, 32))
    && (s.instance.None? ==>
         s.result.runId.None? && s.result.attempt.None? && s.result.instanceIdentity == NoPhysicalId)
    && (s.instance.Some? ==>
          && s.instance.value.runId == s.result.runId && s.result.runId.Some?
          && s.result.attempt.Some? && LowerHex(s.result.attempt.value, 32)
          && s.result.instanceIdentity == DigestOf(s.instance.value))
  }

  function InstanceState(s: BackendState): SupervisorState {
    match s
    case READY => Running
    case STARTING => Starting
    case STOPPING => Stopping
    case STOPPED => Stopped
    case BLOCKED => Stopped
    case FAILED => Failed
    case _ => UnknownState
  }

  /** A snapshot as an ordinary supervised instance. */
  function SnapshotInstance(s: Snapshot, p: Profile): Instance {
    Instance(InstanceState(s.result.state),
             FromBackend(p.id, s.result.generation, s.result.instanceIdentity), 0,
             InstanceState(s.result.state) != UnknownState,
             ValidShutdown(s.result, p.id, s.result.runId, ValueGeneration(s.result.generation)), Some(s))
  }

  predicate ValidResult(r: BackendReceipt, q: BackendRequest, result: Result) {
    if result.modelId == "" then
      && result.state == NoBackendState && !result.processActive && !result.apiReady && result.runId.None?
      && result.generation.None? && result.attempt.None? && !result.shutdownVerified && result.shutdownWitness.None?
    else
      && result.modelId == q.profileId && result.generation == Some(r.generation)
      && result.runId == r.runId && result.attempt == r.attempt && result.state != NoBackendState
      && !(r.runId.None? && result.state in {READY, STARTING, STOPPING, FAILED})
      && (result.apiReady ==> result.state == READY && result.processActive)
      && !(result.processActive && (result.state == STOPPED || result.state == BLOCKED))
  }

  /** The receipt answers exactly this request. */
  predicate ValidReceipt(r: BackendReceipt, q: BackendRequest) {
    && r.operationId == q.operationId && r.profileId == q.profileId && r.action == q.action
    && r.phase != OtherPhase && 0 <= r.generation <= MAX_GENERATION && r.stageKnown
    && (r.runId.Some? ==> LowerHex(r.runId.value, 32) && r.attempt.Some? && LowerHex(r.attempt.value, 32))
    && (r.runId.None? ==> r.attempt.None?)
    && (if r.result.Some? then ValidResult(r, q, r.result.value) else r.phase != Completed)
    && (r.action == Stop ==> r.generation == q.expectedGeneration)
    && (r.action == Start ==> q.expectedGeneration <= r.generation <= q.expectedGeneration + 1)
  }

  predicate SameRun(a: Option<BackendReceipt>, b: BackendReceipt) {
    a.Some? && a.value.runId.Some? && a.value.runId == b.runId && a.value.attempt == b.attempt
        && a.value.generation == b.generation
  }

  function CancelledReceipt(stop: Receipt, r: ActionRequest): Receipt {
    stop.(jobId := r.jobId, operationId := r.operationId, status := StatusFailed,
          stage := StartCancelledAfterStop, code := SupersededByStop)
  }

  /** What the receipt and a fresh snapshot together prove about a completed stop. */
  predicate StopProven(p: Profile, backend: BackendReceipt, current: Snapshot) {
    && backend.phase == Completed && backend.result.Some? && backend.action == Stop
    && ValidShutdown(backend.result.value, p.id, backend.runId, backend.generation)
    && current.result.instanceIdentity == backend.result.value.instanceIdentity
    && backend.result.value.attempt == backend.attempt && current.result.attempt == backend.attempt
    && ValidShutdown(current.result, p.id, backend.runId, backend.generation)
  }

  predicate StartProven(p: Profile, backend: BackendReceipt, current: Snapshot) {
    && backend.phase == Completed && backend.result.Some? && backend.action == Start
    && (backend.result.value.state == READY || backend.result.value.state == STARTING)
    && current.result.state == READY && current.result.processActive && current.result.apiReady
        && ReadyPhysical(current, p)
  }

  // ---------------------------------------------------------------- chains of accepted snapshots

  /** Compatibility composes along a chain of snapshots. */
  lemma CompatibleTransitive(a: Option<Snapshot>, b: Option<Snapshot>, c: Option<Snapshot>)
    requires Compatible(a, b) && Compatible(b, c)
    ensures Compatible(a, c)
  {
  }

  /** Every snapshot of the chain is compatible with every later one. */
  ghost predicate ChainCompatible(chain: seq<Snapshot>) {
    forall i, j :: 0 <= i < j < |chain| ==> Compatible(Some(chain[i]), Some(chain[j]))
  }

  /** Extending a chain needs only a comparison with its last element. */
  lemma ChainExtends(chain: seq<Snapshot>, s: Snapshot)
    requires ChainCompatible(chain)
    requires |chain| > 0 ==> Compatible(Some(chain[|chain| - 1]), Some(s))
    ensures ChainCompatible(chain + [s])
  {
    var longer := chain + [s];
    forall i, j | 0 <= i < j < |longer|
      ensures Compatible(Some(longer[i]), Some(longer[j]))
    {
      if j == |chain| && i < |chain| - 1 {
        CompatibleTransitive(Some(chain[i]), Some(chain[|chain| - 1]), Some(s));
      }
    }
  }
}
