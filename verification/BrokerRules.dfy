/**
  The pure rules of the broker (`internal/spark/control.go`): observation and
  fencing generations, request validation, exclusion and memory preflight,
  and the rewrites of journal records that stops, restarts and reconciliation make.
*/
module BrokerRules {
  import opened SparkTypes

  const WORD: nat := 0x1_0000_0000_0000_0000

  /** A verified end of the instance: nothing of it is left running. */
  predicate ShutdownComplete(p: Profile, i: Instance) {
    && i.available && i.identity != NO_IDENTITY && (i.state == Stopped || i.state == Failed) && i.pid == 0
    && match p.kind
       case SystemdSystem => i.shutdownVerified && (i.state != Failed || i.identity != Plain("stopped"))
       case SystemdUser => i.shutdownVerified && (i.state != Failed || i.identity != Plain("stopped"))
       case ExistingCoordinator => i.shutdownVerified
       case Docker => i.state == Stopped
       case _ => false
  }

  function ObservedProfile(prev: RuntimeProfile, p: Profile, i: Instance, now: Time): RuntimeProfile {
    var fenced := if prev.identity != i.identity then prev.(generation := prev.generation + 1, identity := i.identity)
        else prev;
    var seen := fenced.(state := i.state);
    if p.kind == ExistingCoordinator then
      seen.(backendObservedAtMs := if i.backend.Some? then i.backend.value.observedAtMs else seen.backendObservedAtMs,
            reserved := false, startingAt := ZERO_TIME, reservationUntil := ZERO_TIME)
    else if i.state == Stopped || i.state == Failed then
      seen.(reserved := !ShutdownComplete(p, i) || (seen.reservationUntil != ZERO_TIME && now < seen.reservationUntil),
            startingAt := ZERO_TIME)
    else seen
  }

  function Observe(j: Journal, p: Profile, i: Instance, now: Time): Journal {
    j.(profiles := j.profiles[p.id := ObservedProfile(RuntimeOf(j, p.id), p, i, now)])
  }

  function SessionFor(j: Journal, session: string, r: ActionRequest): string {
    if r.local then "local:" + j.epoch else session
  }

  function EvidenceReceipt(j: Journal, session: string, r: ActionRequest, p: Profile, i: Instance,
                           status: Status, stage: ReceiptStage, now: Time): Receipt {
    Receipt(r.jobId, r.operationId, status, stage, NoCode, Some(now),
            Some(Evidence(p.id, p.revision, RuntimeOf(j, p.id).generation, j.epoch,
                          if r.local then r.params.expectedAgentSession else session,
                          i.state, i.identity, ShutdownComplete(p, i),
                          ShutdownComplete(p, i) && i.state == Failed, false, None)))
  }

  // ---------------------------------------------------------------- validation

  predicate LeaseValid(r: ActionRequest, now: Time) {
    && r.issuedAt != ZERO_TIME && r.deadline != ZERO_TIME
    && now < r.deadline
    && r.deadline - r.issuedAt <= DISPATCH_LEASE
    && r.issuedAt <= now + 5 * SECOND
    && now - r.issuedAt <= DISPATCH_LEASE + 5 * SECOND
  }

  /** The parent of a linked start is a stopped restart of the same operation and profile. */
  predicate ParentStopped(j: Journal, r: ActionRequest, p: Profile) {
    && r.parentJobId.Some? && r.parentJobId.value in j.attempts
    && var parent := j.attempts[r.parentJobId.value];
       && parent.stage == RestartStopped
       && parent.request.params.profileId == p.id
       && parent.request.operationId == r.operationId
  }

  predicate ParentAuthorizes(j: Journal, r: ActionRequest, p: Profile) {
    && ParentStopped(j, r, p)
    && j.attempts[r.parentJobId.value].request.action == Restart
    && Restart in p.allowed
  }

  predicate ParentFresh(parent: Attempt, now: Time) {
    parent.receipt.verifiedAt.Some? && now - parent.receipt.verifiedAt.value <= 60 * SECOND
  }

  function ValidateAuthority(j: Journal, policy: Policy, session: string, r: ActionRequest, p: Profile,
                             now: Time): Option<Code> {
    var linked := r.action == Start && r.parentJobId.Some?;
    if linked && !ParentAuthorizes(j, r, p) then Some(LinkedStageNotAuthorized)
    else if linked && !ParentFresh(j.attempts[r.parentJobId.value], now) then Some(LinkedStageExpired)
    else if !policy.enabled || p.observationOnly || p.kind == ConfiguredCatalog
        || !(linked || r.action in p.allowed) then
      Some(LocalActionNotApproved)
    else
      var wanted := SessionFor(j, session, r);
      if r.params.controlEpoch != j.epoch || r.params.expectedAgentSession != wanted || wanted == ""
          || r.params.profileRevision != p.revision then
        Some(AuthorityOrProfileDrift)
      else None
  }

  function ValidateInstance(j: Journal, r: ActionRequest, p: Profile, i: Instance, now: Time): Option<Code> {
    if r.params.expectedGeneration != RuntimeOf(j, p.id).generation then Some(GenerationDrift)
    else if r.action == Start && (i.state == Stopped || i.state == Failed) && !ShutdownComplete(p, i)
        then Some(ServiceShutdownUnverified)
    else if r.action == Start && r.parentJobId.Some? && !ShutdownComplete(p, i)
        then Some(RestartStoppedStageIdentityUnavailable)
    else if !LeaseValid(r, now) then Some(DispatchExpired)
    else if r.action != Start && i.state != Stopped && !r.params.confirmDisruption
        then Some(DisruptionConfirmationRequired)
    else None
  }

  /** The journal after validation (it observes the instance once authority holds) and the refusal, if any. */
  function Validate(j: Journal, policy: Policy, session: string, r: ActionRequest, p: Profile, i: Instance,
                    now: Time): (Journal, Option<Code>) {
    var refused := ValidateAuthority(j, policy, session, r, p, now);
    if refused.Some? then (j, refused)
    else
      var seen := Observe(j, p, i, now);
      (seen, ValidateInstance(seen, r, p, i, now))
  }

  // ---------------------------------------------------------------- launch preflight

  predicate Conflicts(p: Profile, other: Profile) {
    p.exclusionGroups * other.exclusionGroups != {}
  }

  predicate Occupied(r: RuntimeProfile) {
    r.reserved || r.state == Running || r.state == Starting || r.state == Stopping
  }

  function ProbeOf(probes: map<ProfileId, Probe>, id: ProfileId): Probe {
    if id in probes then probes[id] else ProbeFailed
  }

  /** The walk over the other profiles: conflicting ones are inspected afresh, and memory held by reserved ones is
      set aside. */
  function PreflightOthers(j: Journal, others: seq<Profile>, p: Profile, replace: bool, need: nat, available: nat,
                           probes: map<ProfileId, Probe>, now: Time): (Journal, Option<Code>)
    decreases |others|
  {
    if others == [] then (j, None)
    else
      var other := others[0];
      if other.id == p.id then PreflightOthers(j, others[1..], p, replace, need, available, probes, now)
      else
        var conflict := Conflicts(p, other);
        var probe := ProbeOf(probes, other.id);
        if conflict && probe.ProbeFailed? then (j, Some(ExclusionStateUnknown))
        else
          var seen := if conflict then Observe(j, other, probe.instance, now) else j;
          var r := RuntimeOf(seen, other.id);
          if conflict && Occupied(r) then (seen, Some(ExclusionGroupBusy))
          else if r.reserved && other.requiredMemory > 0 && !replace then
            if other.requiredMemory > available || need > available - other.requiredMemory
                then (seen, Some(MemoryReserved))
            else PreflightOthers(seen, others[1..], p, replace, need, available - other.requiredMemory, probes, now)
          else PreflightOthers(seen, others[1..], p, replace, need, available, probes, now)
  }

  function MemoryNeed(p: Profile): nat {
    (p.requiredMemory + p.osHeadroom) % WORD
  }

  function Preflight(j: Journal, policy: Policy, p: Profile, replace: bool, available: nat, portFree: bool,
                     probes: map<ProfileId, Probe>, now: Time): (Journal, Option<Code>) {
    var need := MemoryNeed(p);
    if p.requiredMemory == 0 && p.blockUnknownMemory then (j, Some(MemoryEstimateUnknown))
    else if need < p.requiredMemory then (j, Some(MemoryEstimateInvalid))
    else if !replace && need > 0 && (available == 0 || available < need) then (j, Some(InsufficientMemory))
    else
      var (seen, refused) := PreflightOthers(j, policy.profiles, p, replace, need, available, probes, now);
      if refused.None? && p.usesPort && !replace && !portFree then (seen, Some(LaunchPortBusy))
      else (seen, refused)
  }

  // ---------------------------------------------------------------- records rewritten by a stop

  predicate CancellablePreflight(a: Attempt, id: ProfileId) {
    a.request.action == Start && a.request.params.profileId == id && a.stage == PreflightPending
  }

  function CancelledPreflight(a: Attempt): Attempt {
    a.(stage := Done, receipt := Rejection(a.request, StartCancelledByStop))
  }

  predicate SupersededParent(a: Attempt, id: ProfileId) {
    a.request.params.profileId == id && a.request.action == Restart
        && (a.stage == RestartStopped || a.stage == StartAttempted)
  }

  function SupersededReceipt(r: Receipt): Receipt {
    r.(status := StatusFailed, stage := RestartCancelledAfterStop, code := SupersededByStop)
  }

  /** A linked start whose parent an admitted stop supersedes. */
  predicate SupersededChild(attempts: map<JobId, Attempt>, a: Attempt, id: ProfileId) {
    && a.request.parentJobId.Some? && a.stage != Done
    && a.request.parentJobId.value in attempts && SupersededParent(attempts[a.request.parentJobId.value], id)
  }

  /** The record an admitted stop of profile `id` leaves in place of `a`. */
  function AfterStopAdmission(attempts: map<JobId, Attempt>, a: Attempt, id: ProfileId): Attempt {
    if CancellablePreflight(a, id) then CancelledPreflight(a)
    else if SupersededParent(a, id) then a.(stage := Done, receipt := SupersededReceipt(a.receipt))
    else if SupersededChild(attempts, a, id) then CancelledPreflight(a)
    else a
  }

  /** Everything an admitted stop cancels: starts in preflight, stopped restarts and their linked starts. */
  function CancelForStop(j: Journal, id: ProfileId): Journal {
    j.(attempts := map k | k in j.attempts :: AfterStopAdmission(j.attempts, j.attempts[k], id),
       profiles := j.profiles[id := RuntimeOf(j, id).(reservationUntil := ZERO_TIME)])
  }

  predicate SameAuthority(start: ActionRequest, stop: ActionRequest) {
    && start.local == stop.local
    && start.params.profileId == stop.params.profileId
    && start.params.profileRevision == stop.params.profileRevision
    && start.params.controlEpoch == stop.params.controlEpoch
    && start.params.expectedAgentSession == stop.params.expectedAgentSession
  }

  predicate ExactInstance(start: Attempt, stop: ActionRequest, current: Instance) {
    && (current.state == Starting || current.state == Running)
    && current.identity != NO_IDENTITY
    && start.receipt.evidence.Some?
    && start.receipt.evidence.value.identity == current.identity
    && start.receipt.evidence.value.generation == stop.params.expectedGeneration
    && if start.before.state == Starting then
         start.before.identity == current.identity
             && start.request.params.expectedGeneration == stop.params.expectedGeneration
       else
         && (start.before.state == Stopped || start.before.state == Failed)
         && start.before.identity != current.identity
         && stop.params.expectedGeneration > 0
         && start.request.params.expectedGeneration == stop.params.expectedGeneration - 1
  }

  predicate BoundByStop(a: Attempt, stop: ActionRequest, i: Instance) {
    && a.request.action == Start && a.request.parentJobId.None? && a.stage == EffectAttempted
    && SameAuthority(a.request, stop) && ExactInstance(a, stop, i)
  }

  /** The admitted stop is recorded in every start it will resolve. */
  function LinkStarts(j: Journal, stop: ActionRequest, i: Instance): Journal {
    j.(attempts := map k | k in j.attempts ::
      if BoundByStop(j.attempts[k], stop, i) then j.attempts[k].(stoppedBy := Some(stop.jobId)) else j.attempts[k])
  }

  /** Restarts are never linked to another restart. */
  ghost predicate RestartsUnlinked(attempts: map<JobId, Attempt>) {
    forall k :: k in attempts && attempts[k].request.action == Restart ==> attempts[k].request.parentJobId.None?
  }

  /** Undo of `LinkStarts`: each start bound by the stop gets its previous link from `before` back. */
  function RestoreLinks(j: Journal, before: map<JobId, Attempt>, stop: ActionRequest, i: Instance): Journal {
    j.(attempts := map k | k in j.attempts ::
      if k in before && BoundByStop(before[k], stop, i) && j.attempts[k].stoppedBy == Some(stop.jobId)
      then j.attempts[k].(stoppedBy := before[k].stoppedBy) else j.attempts[k])
  }

  predicate IsDigestIdentity(identity: Identity) {
    !identity.Plain?
  }

  /** A finished stop whose receipt proves the shutdown. */
  predicate ProvenStop(stop: Attempt) {
    && stop.request.action == Stop && stop.stage == Done
    && stop.receipt.status == StatusSucceeded && stop.receipt.stage == ModelStopped
    && stop.receipt.evidence.Some?
    && var e := stop.receipt.evidence.value;
       && e.shutdownVerified
       && (e.state == Stopped || (e.state == Failed && e.failedShutdownReason && IsDigestIdentity(e.identity)))
  }

  predicate ResolvedByStop(a: Attempt, stop: Attempt) {
    a.stoppedBy == Some(stop.request.jobId) && a.stage != Done && SameAuthority(a.request, stop.request)
  }

  function StoppedStartReceipt(a: Attempt, stop: Attempt): Receipt {
    stop.receipt.(jobId := a.request.jobId, operationId := a.request.operationId, status := StatusFailed,
                  stage := StartCancelledAfterStop, code := SupersededByStop)
  }

  /** A proven stop closes the starts bound to it. */
  function FinishStoppedStarts(j: Journal, stop: Attempt): Journal {
    if !ProvenStop(stop) then j
    else j.(attempts := map k | k in j.attempts ::
      if ResolvedByStop(j.attempts[k], stop)
      then j.attempts[k].(stage := Done, receipt := StoppedStartReceipt(j.attempts[k], stop)) else j.attempts[k])
  }

  predicate ParentAwaits(j: Journal, stage: Attempt) {
    && stage.request.parentJobId.Some? && stage.stage == Done
    && stage.request.parentJobId.value in j.attempts
    && var parent := j.attempts[stage.request.parentJobId.value];
       && parent.stage == StartAttempted
       && parent.request.operationId == stage.request.operationId
       && parent.request.params.profileId == stage.request.params.profileId
  }

  function ParentReceipt(parent: Attempt, stage: Attempt): Receipt {
    var copied := stage.receipt.(jobId := parent.request.jobId);
    if stage.receipt.status != StatusSucceeded then copied
    else copied.(stage := ModelRestarted,
                 evidence := if copied.evidence.Some? then Some(copied.evidence.value
                     .(stageId := Some(stage.request.jobId))) else None)
  }

  /** A finished linked start closes its restart. */
  function FinishParent(j: Journal, stage: Attempt): Journal {
    if !ParentAwaits(j, stage) then j
    else
      var parent := j.attempts[stage.request.parentJobId.value];
      j.(attempts := j.attempts[parent.request.jobId := parent.(stage := Done,
          receipt := ParentReceipt(parent, stage))])
  }

  // ---------------------------------------------------------------- reconciliation of an unresolved attempt

  function HoldReservation(j: Journal, id: ProfileId, now: Time): Journal {
    j.(profiles := j.profiles[id := RuntimeOf(j, id).(reserved := true, reservationUntil := now + 60 * SECOND)])
  }

  /** A start that an admitted stop was linked to is closed by that stop, or stays open. */
  function ReconcileStopped(j: Journal, session: string, a: Attempt, stopId: JobId, p: Profile, i: Instance,
                            now: Time): (Journal, Attempt) {
    var closing := if stopId in j.attempts then FinishStoppedStarts(j, j.attempts[stopId]) else j;
    if stopId in j.attempts && AttemptOf(closing, a.request.jobId).stage == Done then
      (closing, AttemptOf(closing, a.request.jobId))
    else
      (closing, a.(receipt := EvidenceReceipt(closing, session, a.request, p, i, StatusUnknown, StopOutcomeUnconfirmed,
          now)))
  }

  function ReconcileShutdown(j: Journal, session: string, a: Attempt, p: Profile, i: Instance, now: Time): (Journal,
      Attempt) {
    var stopped := EvidenceReceipt(j, session, a.request, p, i, StatusSucceeded, ModelStopped, now);
    if a.request.action == Restart then
      (HoldReservation(j, p.id, now),
       a.(stage := RestartStopped, receipt := stopped.(status := StatusAwaitingConfirmation,
           stage := RestartStoppedReceipt)))
    else
      var done := a.(stage := Done, receipt := stopped);
      (FinishStoppedStarts(j, done), done)
  }

  function ReconcileStarted(j: Journal, session: string, a: Attempt, p: Profile, i: Instance, now: Time): (Journal,
      Attempt) {
    var done := a.(stage := Done, receipt := EvidenceReceipt(j, session, a.request, p, i, StatusSucceeded, ModelStarted,
        now));
    (FinishParent(j, done), done)
  }

  function ReconcileSeen(j: Journal, session: string, a: Attempt, p: Profile, i: Instance, now: Time): (Journal,
      Attempt) {
    if a.stoppedBy.Some? then ReconcileStopped(j, session, a, a.stoppedBy.value, p, i, now)
    else if a.request.action == Start && i.state == Running then ReconcileStarted(j, session, a, p, i, now)
    else if (a.request.action == Stop || a.request.action == Restart) && ShutdownComplete(p, i) then
      ReconcileShutdown(j, session, a, p, i, now)
    else (j, a.(receipt := EvidenceReceipt(j, session, a.request, p, i, StatusUnknown, AttemptUnresolvedReceipt, now)))
  }

  /** The journal with the records that reconciliation of `a` closes, and `a` itself reconciled. */
  function Reconcile(j: Journal, session: string, a: Attempt, p: Profile, i: Instance, now: Time): (Journal, Attempt) {
    ReconcileSeen(Observe(j, p, i, now), session, a, p, i, now)
  }

  // ---------------------------------------------------------------- pruning

  predicate Prunable(a: Attempt, now: Time) {
    a.stage == Done && a.at < now - DAY
  }

  /** Finished records older than a day are dropped once 1024 records exist. */
  function Prune(j: Journal, now: Time): Journal {
    if |j.attempts| < 1024 then j
    else j.(attempts := map k | k in j.attempts && !Prunable(j.attempts[k], now) :: j.attempts[k])
  }
}
