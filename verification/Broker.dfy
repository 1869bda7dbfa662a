/**
  The broker as a state machine (`internal/spark/control.go`,
  `internal/spark/existing_coordinator.go`).

  Each critical section under the coordinator's mutex is one step.  Work done
  between two sections by the same call is a `Thread`.  What the environment
  answers (inspections, definitions, clock readings, journal writes, backend
  replies) is carried by the step.  A crash forgets everything but the journal
  file; a failed write leaves the old or the new bytes.
*/
module Broker {
  import opened SparkTypes
  import opened BrokerRules
  import opened ExistingRules

  datatype PendingStart = PendingStart(request: ActionRequest, token: nat, owner: nat)

  datatype Publication = Publication(profile: ProfileId, generation: int, identity: Identity)

  /** A call between two critical sections. */
  datatype Thread =
    | InPreflight(r: ActionRequest, p: Profile, i: Instance, token: nat)
    | InTail(r: ActionRequest, p: Profile, after: Instance)
    | ObservingExisting(r: ActionRequest, p: Profile, authority: Authority)
    | Submitting(r: ActionRequest, p: Profile, request: BackendRequest, authority: Authority)
    | Querying(r: ActionRequest, p: Profile, request: BackendRequest, authority: Authority)
    | Finishing(r: ActionRequest, p: Profile, backend: BackendReceipt, authority: Authority)
    | Rechecking(r: ActionRequest, p: Profile, backend: BackendReceipt, authority: Authority, a: Attempt)
    | Committing(r: ActionRequest, p: Profile, backend: BackendReceipt, authority: Authority, current: Option<Snapshot>)
    | Snapshotting(seen: seq<Publication>)

  /** What the broker did to the outside: a supervisor call, with the state of the broker at that moment, or a typed
      submission to the existing coordinator. */
  datatype Act =
    | Effect(
        request: ActionRequest,
        at: Time,
        thread: nat,
        action: Action,
        profile: Profile,
        validatedAt: Time,
        definition: Option<string>,
        policy: Policy,
        session: string,
        journal: Journal,
        durable: Journal)
    | Submission(request: ActionRequest, at: Time, backend: BackendRequest)

  datatype Broker = Broker(
    policy: Policy,
    running: bool,
    session: string,
    mem: Journal,
    disk: Journal,
    tokens: map<ProfileId, nat>,
    pending: map<ProfileId, PendingStart>,
    threads: map<nat, Thread>,
    nextThread: nat,
    now: Time,
    live: set<ProfileId>,
    acts: seq<Act>,
    published: set<Publication>)

  datatype Outcome = Outcome(b: Broker, reply: Option<Receipt>)

  /** Policy, session and the other parts of the state no critical section touches. */
  predicate SameShell(b: Broker, b': Broker) {
    && b'.policy == b.policy && b'.running == b.running && b'.session == b.session
    && b'.nextThread == b.nextThread && b'.published == b.published && b'.now == b.now
  }

  /** A section leaves the other calls alone and moves its own call `t` at most to the tail. */
  predicate OnlyTail(b: Broker, b': Broker, t: nat, r: ActionRequest) {
    b'.threads == b.threads || (t in b'.threads && b'.threads[t].InTail? && b'.threads[t].r == r
        && b'.threads == b.threads[t := b'.threads[t]])
  }

  /** Frame of the sections that do not admit a stop. */
  predicate Framed(b: Broker, b': Broker, t: nat, r: ActionRequest) {
    SameShell(b, b') && OnlyTail(b, b', t, r) && b'.tokens == b.tokens && b'.pending == b.pending
  }

  /** Frame of the steps that only move their own call `t` on. */
  predicate CallOnly(b: Broker, b': Broker, t: nat) {
    && SameShell(b, b') && b'.mem == b.mem && b'.disk == b.disk && b'.tokens == b.tokens && b'.pending == b.pending
    && (b'.threads == b.threads - {t} || (t in b'.threads && b'.threads == b.threads[t := b'.threads[t]]))
  }

  function TokenOf(b: Broker, id: ProfileId): nat {
    if id in b.tokens then b.tokens[id] else 0
  }

  function Saved(b: Broker, w: Write): Broker {
    if w == FailedOld then b else b.(disk := b.mem)
  }

  function Put(b: Broker, id: JobId, a: Attempt): Broker {
    b.(mem := b.mem.(attempts := b.mem.attempts[id := a]))
  }

  function Drop(b: Broker, id: JobId): Broker {
    b.(mem := b.mem.(attempts := b.mem.attempts - {id}))
  }

  function EndThread(b: Broker, t: nat): Broker {
    b.(threads := b.threads - {t})
  }

  function EvidenceOf(b: Broker, r: ActionRequest, p: Profile, i: Instance, status: Status, stage: ReceiptStage,
                      now: Time): Receipt {
    EvidenceReceipt(b.mem, b.session, r, p, i, status, stage, now)
  }

  function NewAttempt(r: ActionRequest, stage: Stage, i: Instance, receipt: Receipt, at: Time): Attempt {
    Attempt(r, Some(r), stage, i, receipt, at, None, None, None, None, [])
  }

  // ------------------------------------------------ the final admission and effect (control.go:657-764)

  datatype FinalInputs = FinalInputs(
    lockFree: bool,
    definition: Option<string>,
    admitAt: Time,
    firstSave: Write,
    effectAt: Time,
    effect: Option<Instance>,
    comesUp: bool,
    secondSave: Write)

  function RejectPreflight(b: Broker, r: ActionRequest, code: Code, w: Write): (o: Broker)
    ensures SameShell(b, o) && o.threads == b.threads && o.tokens == b.tokens && o.pending == b.pending
        && o.acts == b.acts && o.live == b.live
  {
    if r.jobId in b.mem.attempts && b.mem.attempts[r.jobId].stage == PreflightPending then
      Saved(Put(b, r.jobId, b.mem.attempts[r.jobId].(stage := Done, receipt := Rejection(r, code))), w)
    else b
  }

  function EffectAttempt(b: Broker, r: ActionRequest, p: Profile, i: Instance, at: Time): Attempt {
    NewAttempt(r, EffectAttempted, i, EvidenceOf(b, r, p, i, StatusUnknown, EffectAttemptedReceipt, at), at)
  }

  function AdvanceParent(j: Journal, r: ActionRequest): Journal {
    if r.parentJobId.None? then j
    else
      var parent := AttemptOf(j, r.parentJobId.value);
      j.(attempts := j.attempts[r.parentJobId.value :=
        parent.(stage := StartAttempted, receipt := parent.receipt.(status := StatusRunning,
            stage := RestartStartAttempted))])
  }

  function Reserve(j: Journal, r: ActionRequest, id: ProfileId, now: Time): Journal {
    if r.action == Stop then j
    else j.(profiles := j.profiles[id := RuntimeOf(j, id).(reserved := true, startingAt := now)])
  }

  /** The journal published before the supervisor is called. */
  function AdmittedJournal(b: Broker, r: ActionRequest, p: Profile, i: Instance, at: Time): Journal {
    var recorded := Put(b, r.jobId, EffectAttempt(b, r, p, i, at)).mem;
    var linked := if r.action == Stop then LinkStarts(recorded, r, i) else recorded;
    Reserve(AdvanceParent(linked, r), r, p.id, at)
  }

  function UndoLinks(j: Journal, before: Journal, r: ActionRequest, i: Instance): Journal {
    if r.action == Stop then RestoreLinks(j, before.attempts, r, i) else j
  }

  function SupervisorAction(a: Action): Action {
    if a == Restart then Stop else a
  }

  /** The supervisor call gave no confirmation. */
  function Unconfirmed(b: Broker, r: ActionRequest, p: Profile, i: Instance, a: Attempt, f: FinalInputs): (o: Outcome)
    ensures SameShell(b, o.b) && o.b.threads == b.threads && o.b.tokens == b.tokens && o.b.pending == b.pending
        && o.b.acts == b.acts && o.b.live == b.live
  {
    var unsure := a.(receipt := EvidenceOf(b, r, p, i, StatusUnknown, SupervisorEffectUnconfirmed, f.effectAt));
    Outcome(Saved(Put(b, r.jobId, unsure), f.secondSave), Some(unsure.receipt))
  }

  /** The supervisor accepted the call and reported the instance `after`. */
  function Confirmed(b: Broker, t: nat, r: ActionRequest, p: Profile, after: Instance, a: Attempt,
                     f: FinalInputs): (o: Outcome)
    ensures Framed(b, o.b, t, r) && o.b.acts == b.acts && o.b.live == b.live
  {
    var seen := b.(mem := Observe(b.mem, p, after, f.effectAt));
    var accepted := a.(receipt := EvidenceOf(seen, r, p, after, StatusRunning, SupervisorCallAccepted, f.effectAt));
    var stored := Put(seen, r.jobId, accepted);
    var saved := Saved(stored.(mem := FinishParent(stored.mem, accepted)), f.secondSave);
    if f.secondSave != Synced then Outcome(saved, Some(Rejection(r, JournalPostEffectUnavailable)))
    else Outcome(saved.(threads := saved.threads[t := InTail(r, p, after)]), None)
  }

  /** The moment of the supervisor call. */
  function Called(b: Broker, t: nat, r: ActionRequest, p: Profile, validatedAt: Time, f: FinalInputs): (o: Broker)
    ensures SameShell(b, o) && o.threads == b.threads && o.tokens == b.tokens && o.pending == b.pending
  {
    var action := SupervisorAction(r.action);
    b.(acts := b.acts + [Effect(r, f.effectAt, t, action, p, validatedAt, f.definition, b.policy, b.session, b.mem,
        b.disk)],
       live := if action == Start && f.comesUp then b.live + {p.id} else b.live)
  }

  /** The supervisor call itself and what is recorded of it before the mutex is released. */
  function Fire(b: Broker, t: nat, r: ActionRequest, p: Profile, i: Instance, a: Attempt, validatedAt: Time,
                f: FinalInputs): (o: Outcome)
    ensures Framed(b, o.b, t, r)
  {
    var called := Called(b, t, r, p, validatedAt, f);
    if f.effect.None? then Unconfirmed(called, r, p, i, a, f)
    else Confirmed(called, t, r, p, f.effect.value, a, f)
  }

  /** The publication failed: the attempt is taken back from memory. */
  function Withdraw(b: Broker, before: Journal, r: ActionRequest, i: Instance): (o: Broker)
    ensures SameShell(b, o) && o.threads == b.threads && o.tokens == b.tokens && o.pending == b.pending
        && o.acts == b.acts && o.live == b.live
  {
    var dropped := Drop(b, r.jobId);
    dropped.(mem := UndoLinks(dropped.mem, before, r, i))
  }

  /** The lease ran out between publication and effect: the attempt is closed unused. */
  function CloseUnused(b: Broker, before: Journal, r: ActionRequest, i: Instance, a: Attempt, w: Write): (o: Broker)
    ensures SameShell(b, o) && o.threads == b.threads && o.tokens == b.tokens && o.pending == b.pending
        && o.acts == b.acts && o.live == b.live
  {
    var stored := Put(b, r.jobId, a.(stage := Done, receipt := Rejection(r, DispatchExpired)));
    Saved(stored.(mem := UndoLinks(stored.mem, before, r, i)), w)
  }

  /** After the write-ahead publication: the last lease check, then the effect. */
  function Published(saved: Broker, before: Journal, t: nat, r: ActionRequest, p: Profile, i: Instance, a: Attempt,
                     validatedAt: Time, f: FinalInputs): (o: Outcome)
    ensures Framed(saved, o.b, t, r)
  {
    if f.firstSave != Synced then Outcome(Withdraw(saved, before, r, i), Some(Rejection(r, JournalUnavailable)))
    else if f.effectAt >= r.deadline then
      Outcome(CloseUnused(saved, before, r, i, a, f.secondSave),
              Some(Rejection(r, if f.secondSave == Synced then DispatchExpired else JournalUnavailable)))
    else Fire(saved, t, r, p, i, a, validatedAt, f)
  }

  /** The attempt is journalled, published, and carried out. */
  function Admit(b: Broker, t: nat, r: ActionRequest, p: Profile, i: Instance, validatedAt: Time,
                 f: FinalInputs): (o: Outcome)
    ensures Framed(b, o.b, t, r)
  {
    Published(Saved(b.(mem := AdmittedJournal(b, r, p, i, f.admitAt)), f.firstSave), b.mem, t, r, p, i,
              EffectAttempt(b, r, p, i, f.admitAt), validatedAt, f)
  }

  function FinalSection(b: Broker, t: nat, r: ActionRequest, p: Profile, i: Instance, validatedAt: Time,
                        f: FinalInputs): (o: Outcome)
    ensures Framed(b, o.b, t, r)
  {
    if p.usesSharedLock && !f.lockFree then Outcome(b, Some(Rejection(r, SharedEntrypointBusy)))
    else if r.parentJobId.Some? && !ParentStopped(b.mem, r, p)
        then Outcome(b, Some(Rejection(r, LinkedStageNotAuthorized)))
    else if f.definition != Some(p.definitionHash) then
      Outcome(RejectPreflight(b, r, EffectiveDefinitionDrift, f.firstSave),
          Some(Rejection(r, EffectiveDefinitionDrift)))
    else if f.admitAt >= r.deadline then
      Outcome(RejectPreflight(b, r, DispatchExpired, f.firstSave), Some(Rejection(r, DispatchExpired)))
    else Admit(b, t, r, p, i, validatedAt, f)
  }

  // ---------------------------------------------------------------- first section of Execute (control.go:448-615)

  datatype EnterInputs = EnterInputs(
    lookAt: Time,
    probe: Probe,
    validateAt: Time,
    definition: Option<string>,
    save: Write,
    final: FinalInputs)

  /** An unresolved attempt is compared with the instance and what it proves is recorded. */
  function Reconciled(b: Broker, r: ActionRequest, p: Profile, prior: Attempt, i: Instance, at: Time,
                      w: Write): (o: Outcome)
    ensures SameShell(b, o.b) && o.b.threads == b.threads && o.b.tokens == b.tokens && o.b.pending == b.pending
        && o.b.acts == b.acts && o.b.live == b.live
  {
    var closed := Reconcile(b.mem, b.session, prior, p, i, at);
    Outcome(Saved(Put(b.(mem := closed.0), r.jobId, closed.1), w), Some(closed.1.receipt))
  }

  /** A request whose id is already journalled: it may be answered or reconciled, never repeated. */
  function Duplicate(b: Broker, r: ActionRequest, p: Profile, e: EnterInputs): (o: Outcome)
    requires r.jobId in b.mem.attempts
    ensures SameShell(b, o.b) && o.b.threads == b.threads && o.b.tokens == b.tokens && o.b.pending == b.pending
        && o.b.acts == b.acts && o.b.live == b.live
  {
    var prior := b.mem.attempts[r.jobId];
    if prior.digest != Some(r) then Outcome(b, Some(Rejection(r, IdempotencyConflict)))
    else if !b.policy.enabled || r.params.controlEpoch != b.mem.epoch || (!r.local && b.session == "")
        || r.params.profileRevision != p.revision then
      Outcome(b, Some(Rejection(r, AuthorityChanged)))
    else if prior.stage == Done || prior.stage == RestartStopped || prior.stage == StartAttempted
        then Outcome(b, Some(prior.receipt))
    else if prior.stage == PreflightPending then
      if p.id !in b.pending || b.pending[p.id].request.jobId != r.jobId then
        var interrupted := prior.(stage := Done, receipt := Rejection(r, StartPreflightInterrupted));
        Outcome(Saved(Put(b, r.jobId, interrupted), e.save),
                Some(if e.save == Synced then interrupted.receipt else Rejection(r, JournalUnavailable)))
      else Outcome(b, Some(prior.receipt))
    else if e.probe.ProbeFailed? then Outcome(b, Some(Rejection(r, AttemptUnresolved)))
    else Reconciled(b, r, p, prior, e.probe.instance, e.lookAt, e.save)
  }

  /** An admitted stop invalidates every preflight of its profile and cancels what waits on it. */
  function StopAdmission(b: Broker, id: ProfileId): (o: Broker)
    ensures SameShell(b, o) && o.threads == b.threads && o.acts == b.acts && o.live == b.live && o.disk == b.disk
  {
    b.(tokens := b.tokens[id := TokenOf(b, id) + 1], pending := b.pending - {id}, mem := CancelForStop(b.mem, id))
  }

  predicate AlreadySatisfied(r: ActionRequest, p: Profile, i: Instance) {
    (r.action == Start && i.state == Running) || (r.action == Stop && ShutdownComplete(p, i))
  }

  function RecordSatisfied(b: Broker, r: ActionRequest, p: Profile, i: Instance, e: EnterInputs): (o: Outcome)
    ensures SameShell(b, o.b) && o.b.threads == b.threads && o.b.tokens == b.tokens && o.b.acts == b.acts
        && o.b.live == b.live
  {
    var receipt := EvidenceOf(b, r, p, i, StatusSucceeded, if r.action == Stop then ModelStopped else ModelStarted,
        e.validateAt);
    var a := NewAttempt(r, Done, i, receipt, e.validateAt);
    var stored := Put(b, r.jobId, a);
    Outcome(Saved(stored.(mem := FinishStoppedStarts(stored.mem, a)), e.save),
            Some(if e.save == Synced then receipt else Rejection(r, JournalUnavailable)))
  }

  function RecordStarting(b: Broker, r: ActionRequest, p: Profile, i: Instance, e: EnterInputs): (o: Outcome)
    ensures SameShell(b, o.b) && o.b.threads == b.threads && o.b.tokens == b.tokens && o.b.acts == b.acts
        && o.b.live == b.live
  {
    var receipt := EvidenceOf(b, r, p, i, StatusRunning, ModelStarting, e.validateAt);
    Outcome(Saved(Put(b, r.jobId, NewAttempt(r, EffectAttempted, i, receipt, e.validateAt)), e.save),
            Some(if e.save == Synced then receipt else Rejection(r, JournalUnavailable)))
  }

  /** A start is journalled before its preflight; if that fails it is taken back. */
  function JournalPreflight(b: Broker, r: ActionRequest, p: Profile, i: Instance, at: Time, w: Write): (o: Broker)
    ensures SameShell(b, o) && o.threads == b.threads && o.tokens == b.tokens && o.pending == b.pending
        && o.acts == b.acts && o.live == b.live
  {
    var receipt := EvidenceOf(b, r, p, i, StatusAccepted, StartPreflightPending, at);
    var stored := Saved(Put(b, r.jobId, NewAttempt(r, PreflightPending, i, receipt, at)), w);
    if w == Synced then stored else Drop(stored, r.jobId)
  }

  function Register(b: Broker, t: nat, r: ActionRequest, id: ProfileId): Broker {
    if id in b.pending then b else b.(pending := b.pending[id := PendingStart(r, TokenOf(b, id), t)])
  }

  /** Start and restart leave the mutex for the weights preflight, remembering the token of the profile. */
  function BeginPreflight(b: Broker, t: nat, r: ActionRequest, p: Profile, i: Instance, e: EnterInputs): (o: Outcome)
    ensures SameShell(b, o.b) && o.b.tokens == b.tokens && o.b.acts == b.acts && o.b.live == b.live
    ensures o.b.threads == b.threads || o.b.threads == b.threads[t := InPreflight(r, p, i, TokenOf(b, p.id))]
  {
    var journalled := if r.action == Start then JournalPreflight(b, r, p, i, e.validateAt, e.save) else b;
    if r.action == Start && e.save != Synced then Outcome(journalled, Some(Rejection(r, JournalUnavailable)))
    else
      var waiting := journalled.(threads := b.threads[t := InPreflight(r, p, i, TokenOf(b, p.id))]);
      Outcome(if r.action == Start then Register(waiting, t, r, p.id) else waiting, None)
  }

  /** A validated new request. */
  function Dispatch(b: Broker, t: nat, r: ActionRequest, p: Profile, i: Instance, e: EnterInputs): Outcome {
    if e.definition != Some(p.definitionHash) then Outcome(b, Some(Rejection(r, EffectiveDefinitionDrift)))
    else if r.action == Restart && i.state != Running then Outcome(b, Some(Rejection(r, NotRunningUseStart)))
    else
      var admitted := if r.action == Stop then StopAdmission(b, p.id) else b;
      if AlreadySatisfied(r, p, i) then RecordSatisfied(admitted, r, p, i, e)
      else if r.action == Start && i.state == Starting then RecordStarting(admitted, r, p, i, e)
      else if r.action != Stop then BeginPreflight(admitted, t, r, p, i, e)
      else FinalSection(admitted, t, r, p, i, e.validateAt, e.final)
  }

  function EnterDirect(b: Broker, t: nat, r: ActionRequest, p: Profile, e: EnterInputs): Outcome {
    if r.jobId in b.mem.attempts then Duplicate(b, r, p, e)
    else
      var pruned := b.(mem := Prune(b.mem, e.lookAt));
      if |pruned.mem.attempts| >= 2048 then Outcome(pruned, Some(Rejection(r, JournalCapacity)))
      else if e.probe.ProbeFailed? then Outcome(pruned, Some(Rejection(r, SupervisorIdentityUnavailable)))
      else
        var (seen, refused) := Validate(pruned.mem, b.policy, b.session, r, p, e.probe.instance, e.validateAt);
        var checked := pruned.(mem := seen);
        if refused.Some? then Outcome(checked, Some(Rejection(r, refused.value)))
        else Dispatch(checked, t, r, p, e.probe.instance, e)
  }

  // ---------------------------------------------------------------- second section of Execute (control.go:615-656)

  datatype ResumeInputs = ResumeInputs(
    resumeAt: Time,
    weights: Option<Code>,
    probe: Probe,
    validateAt: Time,
    available: nat,
    portFree: bool,
    probes: map<ProfileId, Probe>,
    save: Write,
    final: FinalInputs)

  function Unregister(b: Broker, t: nat, id: ProfileId): (o: Broker)
    ensures SameShell(b, o) && o.threads == b.threads && o.tokens == b.tokens && o.mem == b.mem && o.disk == b.disk
        && o.acts == b.acts && o.live == b.live
  {
    if id in b.pending && b.pending[id].owner == t then b.(pending := b.pending - {id}) else b
  }

  function ResumeChecked(b: Broker, t: nat, r: ActionRequest, p: Profile, i: Instance, x: ResumeInputs): (o: Outcome)
    ensures Framed(b, o.b, t, r)
  {
    var (seen, refused) := Validate(b.mem, b.policy, b.session, r, p, i, x.validateAt);
    var validated := b.(mem := seen);
    if refused.Some? then
      Outcome(RejectPreflight(validated, r, refused.value, x.save), Some(Rejection(r, refused.value)))
    else
      var (walked, busy) := Preflight(seen, b.policy, p, r.action == Restart, x.available, x.portFree, x.probes,
          x.validateAt);
      var inspected := b.(mem := walked);
      if busy.Some? then
        Outcome(RejectPreflight(inspected, r, busy.value, x.save), Some(Rejection(r, busy.value)))
      else FinalSection(inspected, t, r, p, i, x.validateAt, x.final)
  }

  function Resume(b: Broker, t: nat, th: Thread, x: ResumeInputs): Outcome
    requires th.InPreflight?
  {
    var r, p := th.r, th.p;
    var back := Unregister(EndThread(b, t), t, p.id);
    if r.jobId in back.mem.attempts && back.mem.attempts[r.jobId].stage != PreflightPending then Outcome(back, None)
    else if TokenOf(back, p.id) != th.token then
      var cancelled := NewAttempt(r, Done, th.i, Rejection(r, StartCancelledByStop), x.resumeAt);
      Outcome(Saved(Put(back, r.jobId, cancelled), x.save),
              Some(if x.save == Synced then cancelled.receipt else Rejection(r, JournalUnavailable)))
    else if x.weights.Some? then
      Outcome(RejectPreflight(back, r, x.weights.value, x.save), Some(Rejection(r, x.weights.value)))
    else if x.probe.ProbeFailed? then
      Outcome(RejectPreflight(back, r, SupervisorIdentityUnavailable, x.save),
          Some(Rejection(r, SupervisorIdentityUnavailable)))
    else ResumeChecked(back, t, r, p, x.probe.instance, x)
  }

  // ---------------------------------------------------------------- after the effect (control.go:765-833)

  predicate StopCancelled(a: Attempt) {
    a.stage == Done && (a.receipt.code == StartCancelledByStop || a.receipt.code == SupersededByStop)
  }

  function TailAttempt(b: Broker, a: Attempt, r: ActionRequest, p: Profile, after: Instance, now: Time): Attempt {
    var action := SupervisorAction(r.action);
    var receipt := EvidenceOf(b, r, p, after, StatusSucceeded, if action == Stop then ModelStopped else ModelStarted,
        now);
    if r.action == Restart then
      a.(stage := RestartStopped, receipt := receipt.(status := StatusAwaitingConfirmation,
          stage := RestartStoppedReceipt))
    else if action == Start && after.state != Running then
      a.(stage := EffectAttempted, receipt := receipt.(status := StatusRunning, stage := ModelStarting))
    else a.(stage := Done, receipt := receipt)
  }

  /** The record gets its outcome; what it closes is closed with it. */
  function TailRecorded(b: Broker, r: ActionRequest, p: Profile, after: Instance, a: Attempt, now: Time): (o: Broker)
    ensures SameShell(b, o) && o.threads == b.threads && o.tokens == b.tokens && o.pending == b.pending
        && o.acts == b.acts && o.live == b.live
  {
    var finished := TailAttempt(b, a, r, p, after, now);
    var held := if r.action == Restart then HoldReservation(b.mem, p.id, now) else b.mem;
    var stored := Put(b.(mem := held), r.jobId, finished);
    stored.(mem := FinishParent(FinishStoppedStarts(stored.mem, finished), finished))
  }

  function TailSection(b: Broker, t: nat, r: ActionRequest, p: Profile, after: Instance, now: Time,
                       w: Write): (o: Outcome)
    ensures SameShell(b, o.b) && o.b.threads == b.threads - {t} && o.b.tokens == b.tokens && o.b.pending == b.pending
        && o.b.acts == b.acts && o.b.live == b.live
  {
    var ended := EndThread(b, t);
    var a := AttemptOf(b.mem, r.jobId);
    if StopCancelled(a) || a.stoppedBy.Some? then Outcome(ended, Some(a.receipt))
    else
      var seen := ended.(mem := Observe(ended.mem, p, after, now));
      Outcome(Saved(TailRecorded(seen, r, p, after, a, now), w),
              Some(if w == Synced then TailAttempt(seen, a, r, p, after, now).receipt
                  else Rejection(r, JournalPostEffectUnavailable)))
  }

  /** The stop wait ran out: the record keeps its stage and gets an unknown outcome. */
  function TimeoutSection(b: Broker, t: nat, r: ActionRequest, p: Profile, last: Instance, now: Time,
                          w: Write): (o: Outcome)
    ensures SameShell(b, o.b) && o.b.threads == b.threads - {t} && o.b.tokens == b.tokens && o.b.pending == b.pending
        && o.b.acts == b.acts && o.b.live == b.live
  {
    var a := AttemptOf(b.mem, r.jobId);
    var unsure := a.(receipt := EvidenceOf(b, r, p, last, StatusUnknown, StopObservationTimeout, now));
    Outcome(Saved(Put(EndThread(b, t), r.jobId, unsure), w), Some(unsure.receipt))
  }

  // ------------------------------------------------ existing coordinator (existing_coordinator.go:269-411)

  function AuthorityOf(b: Broker, bootId: string): Option<Authority> {
    if b.session == "" then None else Some(Authority(b.mem.epoch, b.session, bootId))
  }

  function EnterExisting(b: Broker, t: nat, r: ActionRequest, p: Profile, bootId: string): (o: Outcome)
    ensures SameShell(b, o.b) && o.b.tokens == b.tokens && o.b.pending == b.pending && o.b.acts == b.acts
        && o.b.live == b.live && o.b.mem == b.mem && o.b.disk == b.disk
    ensures o.b.threads == b.threads || (t in o.b.threads
        && (o.b.threads[t].ObservingExisting? || o.b.threads[t].Querying?) && o.b.threads[t].r == r
        && o.b.threads == b.threads[t := o.b.threads[t]])
  {
    var authority := AuthorityOf(b, bootId);
    if authority.None? || !b.policy.enabled || r.params.profileRevision != p.revision
        then Outcome(b, Some(Rejection(r, AuthorityChanged)))
    else if r.jobId !in b.mem.attempts then
      Outcome(b.(threads := b.threads[t := ObservingExisting(r, p, authority.value)]), None)
    else
      var prior := b.mem.attempts[r.jobId];
      if prior.digest != Some(r) then Outcome(b, Some(Rejection(r, IdempotencyConflict)))
      else if prior.backendRequest.None? then Outcome(b, Some(Rejection(r, AttemptUnresolved)))
      else if prior.stage == RestartStopped || prior.stage == Done then Outcome(b, Some(prior.receipt))
      else if prior.stage == StartAttempted && prior.request.action == Restart then Outcome(b, Some(prior.receipt))
      else Outcome(b.(threads := b.threads[t := Querying(r, p, prior.backendRequest.value, authority.value)]), None)
  }

  predicate ExistingParentAllows(j: Journal, r: ActionRequest, p: Profile, now: Time) {
    && ParentAuthorizes(j, r, p) && r.action == Start
    && var parent := j.attempts[r.parentJobId.value];
       && parent.receipt.evidence.Some? && parent.receipt.evidence.value.shutdownVerified
       && parent.receipt.verifiedAt.Some? && now - parent.receipt.verifiedAt.value < 60 * SECOND
  }

  predicate ExistingLeaseValid(r: ActionRequest, now: Time) {
    && r.issuedAt != ZERO_TIME && now < r.deadline && r.deadline > r.issuedAt
    && r.deadline - r.issuedAt <= DISPATCH_LEASE && r.issuedAt <= now + SECOND
  }

  function ExistingRefusal(b: Broker, r: ActionRequest, p: Profile, snap: Snapshot, authority: Authority,
                           now: Time): Option<Code> {
    var before := SnapshotInstance(snap, p);
    var wanted := SessionFor(b.mem, b.session, r);
    if !(if r.parentJobId.Some? then ExistingParentAllows(b.mem, r, p, now) else r.action in p.allowed)
        || !b.policy.enabled then Some(LocalActionNotApproved)
    else if r.params.controlEpoch != b.mem.epoch || r.params.expectedAgentSession != wanted
        || r.params.profileRevision != p.revision || snap.authority != authority then
      Some(AuthorityOrProfileDrift)
    else if r.params.expectedGeneration != RuntimeOf(b.mem, p.id).generation then Some(GenerationDrift)
    else if snap.profileRevision != p.backendRevision then Some(EffectiveDefinitionDrift)
    else if before.state == UnknownState then Some(SupervisorIdentityUnavailable)
    else if r.action == Restart && before.state != Running then Some(NotRunningUseStart)
    else if r.action != Start && before.state != Stopped && !r.params.confirmDisruption
        then Some(DisruptionConfirmationRequired)
    else if !ExistingLeaseValid(r, now) then Some(DispatchExpired)
    else None
  }

  function BackendRequestFor(r: ActionRequest, p: Profile, snap: Snapshot, authority: Authority): BackendRequest {
    BackendRequest(r.jobId, p.id, SupervisorAction(r.action), p.backendRevision,
                   if snap.result.generation.Some? then snap.result.generation.value else 0,
                   snap.result.instanceIdentity, authority, r.issuedAt, r.deadline, r.parentJobId)
  }

  function AdvanceExistingParent(j: Journal, r: ActionRequest): Journal {
    if r.parentJobId.None? then j
    else
      var parent := AttemptOf(j, r.parentJobId.value);
      j.(attempts := j.attempts[r.parentJobId.value :=
        parent.(stage := StartAttempted,
                receipt := parent.receipt.(status := StatusRunning, stage := RestartStartAttempted,
                    verifiedAt := None))])
  }

  /** The journal with the attempt and, for a linked start, its parent moved on. */
  function ExistingJournal(b: Broker, r: ActionRequest, p: Profile, snap: Snapshot, authority: Authority,
                           now: Time): Journal {
    var before := SnapshotInstance(snap, p);
    var receipt := EvidenceOf(b, r, p, before, StatusUnknown, EffectAttemptedReceipt, now);
    var a := NewAttempt(r, ExistingAttempted, before, receipt, now)
        .(backendRequest := Some(BackendRequestFor(r, p, snap, authority)));
    AdvanceExistingParent(Put(b, r.jobId, a).mem, r)
  }

  /** Record and parent advance go out in one publication; only then may the call submit. */
  function PublishExisting(b: Broker, t: nat, r: ActionRequest, p: Profile, request: BackendRequest,
                           authority: Authority, w: Write): (o: Outcome)
    ensures SameShell(b, o.b) && o.b.tokens == b.tokens && o.b.pending == b.pending && o.b.acts == b.acts
        && o.b.live == b.live
    ensures o.b.threads == b.threads || (t in o.b.threads && o.b.threads[t].Submitting? && o.b.threads[t].r == r
        && o.b.threads == b.threads[t := o.b.threads[t]])
  {
    var saved := Saved(b, w);
    if w != Synced then Outcome(saved, Some(Rejection(r, JournalUnavailable)))
    else Outcome(saved.(threads := saved.threads[t := Submitting(r, p, request, authority)]), None)
  }

  /** A new request after its observation entered the journal. */
  function AdmitSeen(b: Broker, t: nat, r: ActionRequest, p: Profile, snap: Snapshot, authority: Authority, now: Time,
                     w: Write): (o: Outcome)
    ensures SameShell(b, o.b) && o.b.tokens == b.tokens && o.b.pending == b.pending && o.b.acts == b.acts
        && o.b.live == b.live
    ensures o.b.threads == b.threads || (t in o.b.threads && o.b.threads[t].Submitting? && o.b.threads[t].r == r
        && o.b.threads == b.threads[t := o.b.threads[t]])
  {
    var refused := ExistingRefusal(b, r, p, snap, authority, now);
    if refused.Some? then Outcome(b, Some(Rejection(r, refused.value)))
    else if |b.mem.attempts| >= 2048 then Outcome(b, Some(Rejection(r, JournalCapacity)))
    else PublishExisting(b.(mem := ExistingJournal(b, r, p, snap, authority, now)), t, r, p,
        BackendRequestFor(r, p, snap, authority), authority, w)
  }

  /** The section after the observation of a new request. */
  function AdmitExisting(b: Broker, t: nat, th: Thread, snap: Option<Snapshot>, now: Time, w: Write): (o: Outcome)
    requires th.ObservingExisting?
    ensures SameShell(b, o.b) && o.b.tokens == b.tokens && o.b.pending == b.pending && o.b.acts == b.acts
        && o.b.live == b.live
    ensures o.b.threads == b.threads - {t} || (t in o.b.threads && o.b.threads[t].Submitting?
        && o.b.threads[t].r == th.r)
  {
    var r, p := th.r, th.p;
    var ended := EndThread(b, t);
    if snap.None? then Outcome(ended, Some(Rejection(r, SupervisorIdentityUnavailable)))
    else if r.jobId in b.mem.attempts then Outcome(ended, None)
    else
      AdmitSeen(ended.(mem := Observe(ended.mem, p, SnapshotInstance(snap.value, p), now)), t, r, p, snap.value,
          th.authority, now, w)
  }

  /** The submission, outside the mutex; an expired lease or a transport error leaves the record for reconciliation.
      A model whose start was submitted counts as being brought up. */
  function Submit(b: Broker, t: nat, th: Thread, now: Time, answer: Option<BackendReceipt>): (o: Outcome)
    requires th.Submitting?
    ensures CallOnly(b, o.b, t)
    ensures o.b.acts == if now >= th.r.deadline then b.acts else b.acts + [Submission(th.r, now, th.request)]
    ensures o.b.live == if now >= th.r.deadline || th.r.action != Start then b.live else b.live + {th.p.id}
    ensures o.b.threads == b.threads - {t} || (o.b.threads[t].Finishing? && o.b.threads[t].r == th.r)
  {
    var receipt := AttemptOf(b.mem, th.r.jobId).receipt;
    if now >= th.r.deadline then Outcome(EndThread(b, t), Some(receipt))
    else
      var sent := b.(acts := b.acts + [Submission(th.r, now, th.request)],
                     live := if th.r.action == Start then b.live + {th.p.id} else b.live);
      if answer.None? then Outcome(EndThread(sent, t), Some(receipt))
      else Outcome(sent.(threads := b.threads[t := Finishing(th.r, th.p, answer.value, th.authority)]), None)
  }

  function Query(b: Broker, t: nat, th: Thread, answer: Option<BackendReceipt>): (o: Outcome)
    requires th.Querying?
    ensures CallOnly(b, o.b, t) && o.b.acts == b.acts && o.b.live == b.live
    ensures o.b.threads == b.threads - {t} || (o.b.threads[t].Finishing? && o.b.threads[t].r == th.r)
  {
    if answer.None? then Outcome(EndThread(b, t), Some(AttemptOf(b.mem, th.r.jobId).receipt))
    else Outcome(b.(threads := b.threads[t := Finishing(th.r, th.p, answer.value, th.authority)]), None)
  }

  // ---------------------------------------------------------------- finishExisting (existing_coordinator.go:413-517)

  function BeginFinish(b: Broker, t: nat, th: Thread): (o: Outcome)
    requires th.Finishing?
    ensures CallOnly(b, o.b, t) && o.b.acts == b.acts && o.b.live == b.live
    ensures o.b.threads == b.threads - {t} || (o.b.threads[t].Rechecking? && o.b.threads[t].r == th.r)
  {
    var a := AttemptOf(b.mem, th.r.jobId);
    if a.backendRequest.None? || !ValidReceipt(th.backend, a.backendRequest.value) then
      Outcome(EndThread(b, t), Some(Rejection(th.r, BackendReceiptInvalid)))
    else Outcome(b.(threads := b.threads[t := Rechecking(th.r, th.p, th.backend, th.authority, a)]), None)
  }

  predicate WantsSnapshot(backend: BackendReceipt) {
    || (backend.result.Some? && backend.result.value.modelId != "")
    || (backend.runId.Some? && (backend.phase == Dispatched || backend.phase == Completed) && backend.result.None?)
  }

  predicate SnapshotMatches(a: Attempt, p: Profile, backend: BackendReceipt, authority: Authority, snap: Snapshot,
                            now: Time) {
    && ValidSnapshot(snap, p, now) && snap.authority == authority && snap.profileRevision == p.backendRevision
    && snap.result.runId == backend.runId && snap.result.attempt == backend.attempt
    && ValueGeneration(snap.result.generation) == backend.generation
    && Compatible(a.backendSnapshot, Some(snap))
    && (a.before.backend.None? || a.before.backend.value.result.runId != backend.runId
        || Compatible(a.before.backend, Some(snap)))
  }

  function Recheck(b: Broker, t: nat, th: Thread, snap: Option<Snapshot>, now: Time): (o: Outcome)
    requires th.Rechecking?
    ensures CallOnly(b, o.b, t) && o.b.acts == b.acts && o.b.live == b.live
    ensures t in o.b.threads && o.b.threads[t].Committing?
        && o.b.threads[t].r == th.r
  {
    var current := if WantsSnapshot(th.backend) && snap.Some?
        && SnapshotMatches(th.a, th.p, th.backend, th.authority, snap.value, now) then snap else None;
    Outcome(b.(threads := b.threads[t := Committing(th.r, th.p, th.backend, th.authority, current)]), None)
  }

  predicate CommitBlocked(b: Broker, r: ActionRequest, p: Profile, backend: BackendReceipt, authority: Authority,
                          bootId: string) {
    var a := AttemptOf(b.mem, r.jobId);
    var profile := FindProfile(b.policy.profiles, p.id);
    || a.stage == Done || a.stage == RestartStopped || (a.stage == StartAttempted && r.action == Restart)
    || AuthorityOf(b, bootId) != Some(authority) || !b.policy.enabled
    || profile.None? || profile.value.revision != p.revision || profile.value.definitionHash != p.definitionHash
    || (a.backendReceipt.Some? &&
        (a.backendReceipt.value.runId != backend.runId || a.backendReceipt.value.attempt != backend.attempt
            || a.backendReceipt.value.generation != backend.generation))
  }

  /** The snapshot survives the second look only if it is still compatible and not older than what was observed
      since. */
  function UsableSnapshot(b: Broker, a: Attempt, p: Profile, current: Option<Snapshot>): Option<Snapshot> {
    if current.None? || !Compatible(a.backendSnapshot, current) then None
    else
      var observed := RuntimeOf(b.mem, p.id);
      if observed.identity != SnapshotInstance(current.value, p).identity && observed.identity != a.before.identity &&
         observed.backendObservedAtMs >= current.value.observedAtMs then None
      else current
  }

  function ExistingEvidence(b: Broker, r: ActionRequest, p: Profile, i: Instance, status: Status, stage: ReceiptStage,
                            now: Time): Receipt {
    var receipt := EvidenceOf(b, r, p, i, status, stage, now);
    receipt.(evidence := Some(receipt.evidence.value.(controlEpoch := r.params.controlEpoch,
        agentSession := r.params.expectedAgentSession)))
  }

  /** Stage and receipt that the backend's answer and the usable snapshot prove for the attempt. */
  function Judged(b: Broker, a: Attempt, r: ActionRequest, p: Profile, backend: BackendReceipt,
                  current: Option<Snapshot>, i: Instance, now: Time): Attempt {
    var unresolved := ExistingEvidence(b, r, p, i, StatusUnknown, AttemptUnresolvedReceipt, now).(verifiedAt := None);
    if backend.result.Some? && backend.result.value.effectInvoked == Some(false) then
      a.(stage := Done, receipt := Rejection(r, BackendEffectNotInvoked))
    else if current.Some? && StopProven(p, backend, current.value) then
      var stopped := ExistingEvidence(b, r, p, i, StatusSucceeded, ModelStopped, now);
      if r.action == Restart then
        a.(stage := RestartStopped, receipt := stopped.(status := StatusAwaitingConfirmation,
            stage := RestartStoppedReceipt))
      else a.(stage := Done, receipt := stopped)
    else if current.Some? && StartProven(p, backend, current.value) then
      var started := ExistingEvidence(b, r, p, i, StatusSucceeded, ModelStarted, now);
      a.(stage := Done, receipt := started.(evidence := Some(started.evidence.value.(ready := true))))
    else if current.Some? && backend.action == Start && (current.value.result.state == STARTING
        || current.value.result.state == READY) then
      a.(receipt := unresolved.(status := StatusRunning, stage := ModelStarting))
    else a.(receipt := unresolved)
  }

  predicate StopsRun(stop: Attempt, p: Profile, backend: BackendReceipt) {
    && stop.request.action == Stop && stop.request.params.profileId == p.id && stop.stage == Done
    && stop.receipt.status == StatusSucceeded && stop.receipt.evidence.Some?
        && stop.receipt.evidence.value.shutdownVerified
    && SameRun(stop.backendReceipt, backend)
  }

  /** A start that lost to a finished stop of the same run is closed with that stop's receipt. */
  function CancelledByStop(j: Journal, a: Attempt, r: ActionRequest, p: Profile, backend: BackendReceipt,
                           stopId: JobId): Attempt {
    if backend.action == Start && a.stage != Done && stopId in j.attempts
        && StopsRun(j.attempts[stopId], p, backend) then
      a.(stage := Done, receipt := CancelledReceipt(j.attempts[stopId].receipt, r))
    else a
  }

  predicate SomeStopsRun(j: Journal, p: Profile, backend: BackendReceipt) {
    exists k :: k in j.attempts && StopsRun(j.attempts[k], p, backend)
  }

  predicate StartOfRun(a: Attempt, p: Profile, backend: BackendReceipt) {
    a.request.action == Start && a.stage != Done && SameRun(a.backendReceipt, backend)
        && a.request.params.profileId == p.id
  }

  function CloseStarts(j: Journal, stop: Receipt, p: Profile, backend: BackendReceipt): Journal {
    if backend.action == Stop && stop.status == StatusSucceeded then
      j.(attempts := map k | k in j.attempts ::
        if StartOfRun(j.attempts[k], p, backend)
        then j.attempts[k].(stage := Done, receipt := CancelledReceipt(stop, j.attempts[k].request)) else j.attempts[k])
    else j
  }

  datatype CommitInputs = CommitInputs(bootId: string, now: Time, stopId: JobId, save: Write)

  /** The instance the receipt is written about: the usable snapshot, or nothing known. */
  function JudgedInstance(a: Attempt, p: Profile, current: Option<Snapshot>): Instance {
    if current.Some? then SnapshotInstance(current.value, p)
        else a.before.(state := UnknownState, available := false, shutdownVerified := false)
  }

  /** The record after the backend's answer was taken over. */
  function Settled(b: Broker, r: ActionRequest, p: Profile, backend: BackendReceipt, a: Attempt,
                   current: Option<Snapshot>, x: CommitInputs): Attempt {
    var taken := if current.Some? then a.(backendSnapshot := current, accepted := a.accepted + [current.value]) else a;
    var judged := Judged(b, taken, r, p, backend, current, JudgedInstance(a, p, current), x.now)
        .(backendReceipt := Some(backend));
    CancelledByStop(b.mem, judged, r, p, backend, x.stopId)
  }

  /** The settled record, the starts a proven stop closes, and the parent a finished start closes. */
  function CommitRecorded(b: Broker, r: ActionRequest, p: Profile, backend: BackendReceipt,
                          settled: Attempt): (o: Broker)
    ensures SameShell(b, o) && o.threads == b.threads && o.tokens == b.tokens && o.pending == b.pending
        && o.acts == b.acts && o.live == b.live
  {
    var stored := Put(b, r.jobId, settled);
    stored.(mem := FinishParent(CloseStarts(stored.mem, settled.receipt, p, backend), settled))
  }

  function Commit(b: Broker, t: nat, th: Thread, x: CommitInputs): (o: Outcome)
    requires th.Committing?
    ensures SameShell(b, o.b) && o.b.tokens == b.tokens && o.b.pending == b.pending && o.b.acts == b.acts
        && o.b.live == b.live
  {
    var r, p, backend := th.r, th.p, th.backend;
    var ended := EndThread(b, t);
    var a := AttemptOf(b.mem, r.jobId);
    if CommitBlocked(b, r, p, backend, th.authority, x.bootId) then Outcome(ended, Some(a.receipt))
    else
      var current := UsableSnapshot(b, a, p, th.current);
      var seen := if current.Some? then ended.(mem := Observe(ended.mem, p, JudgedInstance(a, p, current), x.now))
          else ended;
      var settled := Settled(seen, r, p, backend, a, current, x);
      Outcome(Saved(CommitRecorded(seen, r, p, backend, settled), x.save),
              Some(if x.save == Synced then settled.receipt else Rejection(r, JournalPostEffectUnavailable)))
  }

  // ---------------------------------------------------------------- entry and the whole machine

  function Enter(b: Broker, r: ActionRequest, bootId: string, e: EnterInputs): Outcome {
    var t := b.nextThread;
    var numbered := b.(nextThread := t + 1);
    if !ValidId(r.jobId) || !ValidId(r.operationId) || r.action == OtherAction
        then Outcome(numbered, Some(Rejection(r, InvalidActionRequest)))
    else
      var p := FindProfile(b.policy.profiles, r.params.profileId);
      if p.None? then Outcome(numbered, Some(Rejection(r, UnknownProfile)))
      else if p.value.kind == ExistingCoordinator then EnterExisting(numbered, t, r, p.value, bootId)
      else EnterDirect(numbered, t, r, p.value, e)
  }

  /** One step of the broker or of its environment. */
  datatype Step =
    | StepEnter(r: ActionRequest, bootId: string, enter: EnterInputs)
    | StepResume(t: nat, resume: ResumeInputs)
    | StepTail(t: nat, verified: Instance, at: Time, save: Write)
    | StepTimeout(t: nat, last: Instance, at: Time, save: Write)
    | StepAdmitExisting(t: nat, snap: Option<Snapshot>, at: Time, save: Write)
    | StepSubmit(t: nat, at: Time, answer: Option<BackendReceipt>)
    | StepQuery(t: nat, answer: Option<BackendReceipt>)
    | StepBeginFinish(t: nat)
    | StepRecheck(t: nat, snap: Option<Snapshot>, at: Time)
    | StepCommit(t: nat, commit: CommitInputs)
    | StepBind(session: string)
    | StepSnapshotBegin
    | StepSnapshotObserve(t: nat, p: Profile, i: Instance, at: Time)
    | StepReady(id: ProfileId)
    | StepSnapshotSave(t: nat, save: Write)
    | StepObserve(p: Profile, i: Instance, at: Time)
    | StepDies(id: ProfileId)
    | StepTick(at: Time)
    | StepCrash
    | StepOpen(policy: Policy, epoch: string, save: Write)

  predicate OrderedFinal(from: Time, f: FinalInputs) {
    from <= f.admitAt <= f.effectAt
  }

  /** When a step can happen: clock readings do not go back, and a call continues where it was. */
  predicate Enabled(b: Broker, s: Step) {
    match s
    case StepEnter(r, _, e) => b.running && b.now <= e.lookAt <= e.validateAt && OrderedFinal(e.validateAt, e.final)
    case StepResume(t, x) => b.running && t in b.threads && b.threads[t].InPreflight?
        && b.now <= x.resumeAt <= x.validateAt && OrderedFinal(x.validateAt, x.final)
    case StepTail(t, verified, at, _) =>
      && b.running && t in b.threads && b.threads[t].InTail? && b.now <= at
      && (SupervisorAction(b.threads[t].r.action) == Stop ==> ShutdownComplete(b.threads[t].p, verified))
    case StepTimeout(t, _, at, _) => b.running && t in b.threads && b.threads[t].InTail?
        && SupervisorAction(b.threads[t].r.action) == Stop && b.now <= at
    case StepAdmitExisting(t, _, at, _) => b.running && t in b.threads && b.threads[t].ObservingExisting? && b.now <= at
    case StepSubmit(t, at, _) => b.running && t in b.threads && b.threads[t].Submitting? && b.now <= at
    case StepQuery(t, _) => b.running && t in b.threads && b.threads[t].Querying?
    case StepBeginFinish(t) => b.running && t in b.threads && b.threads[t].Finishing?
    case StepRecheck(t, _, at) => b.running && t in b.threads && b.threads[t].Rechecking? && b.now <= at
    case StepCommit(t, x) =>
      && b.running && t in b.threads && b.threads[t].Committing? && b.now <= x.now
      && (SomeStopsRun(b.mem, b.threads[t].p, b.threads[t].backend) ==>
           x.stopId in b.mem.attempts && StopsRun(b.mem.attempts[x.stopId], b.threads[t].p, b.threads[t].backend))
    case StepBind(_) => b.running
    case StepSnapshotBegin => b.running
    case StepSnapshotObserve(t, p, _, at) => b.running && t in b.threads && b.threads[t].Snapshotting?
        && p in b.policy.profiles && p.kind != ConfiguredCatalog && b.now <= at
    case StepReady(_) => b.running
    case StepSnapshotSave(t, _) => b.running && t in b.threads && b.threads[t].Snapshotting?
    case StepObserve(p, _, at) => b.running && p in b.policy.profiles && b.now <= at
    case StepDies(_) => true
    case StepTick(at) => b.now <= at
    case StepCrash => true
    case StepOpen(_, _, _) => !b.running
  }

  function Opened(b: Broker, policy: Policy, epoch: string, w: Write): (o: Broker)
    ensures o.mem.attempts == b.disk.attempts && o.mem.profiles == b.disk.profiles && o.disk.attempts == b.disk.attempts
        && o.disk.profiles == b.disk.profiles
    ensures o.threads == b.threads && o.acts == b.acts && o.now == b.now && o.live == b.live && o.policy == policy
        && o.tokens == b.tokens && o.nextThread == b.nextThread
    ensures o.published == b.published && (!o.running ==> o.mem == o.disk || b.running)
  {
    var renewed := b.disk.epoch == "" || b.disk.policyHash != Some(policy);
    var j := if renewed then b.disk.(epoch := epoch, policyHash := Some(policy)) else b.disk;
    var started := Saved(b.(policy := policy, mem := j), w);
    if w != Synced then started.(mem := started.disk) else started.(running := true)
  }

  function Crashed(b: Broker): (o: Broker)
    ensures o.mem == b.disk == o.disk && o.threads == map[] && o.tokens == map[] && o.acts == b.acts && o.now == b.now
        && o.live == b.live && o.policy == b.policy && !o.running
    ensures o.nextThread == b.nextThread && o.published == b.published
  {
    b.(running := false, session := "", mem := b.disk, tokens := map[], pending := map[], threads := map[])
  }

  function SnapshotObserved(b: Broker, t: nat, p: Profile, i: Instance, at: Time): (o: Broker)
    requires t in b.threads && b.threads[t].Snapshotting?
    ensures o.mem.attempts == b.mem.attempts && o.mem == Observe(b.mem, p, i, at) && o.disk == b.disk
        && o.tokens == b.tokens && o.acts == b.acts && o.live == b.live && SameShell(b, o)
    ensures t in o.threads && o.threads[t].Snapshotting? && o.threads == b.threads[t := o.threads[t]]
  {
    var seen := Observe(b.mem, p, i, at);
    b.(mem := seen,
       threads := b.threads[t := Snapshotting(b.threads[t].seen + [Publication(p.id, RuntimeOf(seen, p.id).generation,
           i.identity)])])
  }

  function SnapshotSaved(b: Broker, t: nat, w: Write): (o: Broker)
    requires t in b.threads && b.threads[t].Snapshotting?
    ensures o.mem == b.mem && (o.disk == b.disk || o.disk == b.mem) && o.tokens == b.tokens && o.acts == b.acts
        && o.live == b.live && o.threads == b.threads - {t}
    ensures o.policy == b.policy && o.running == b.running && o.now == b.now && o.nextThread == b.nextThread
  {
    var saved := EndThread(Saved(b, w), t);
    if w != Synced then saved else saved.(published := b.published + (set x | x in b.threads[t].seen))
  }

  /** The state after an enabled step. */
  function Apply(b: Broker, s: Step): Broker
    requires Enabled(b, s)
  {
    match s
    case StepEnter(r, bootId, e) => Enter(b, r, bootId, e).b.(now := e.final.effectAt)
    case StepResume(t, x) => Resume(b, t, b.threads[t], x).b.(now := x.final.effectAt)
    case StepTail(t, verified, at, w) =>
      var th := b.threads[t];
      TailSection(b, t, th.r, th.p, if SupervisorAction(th.r.action) == Stop then verified else th.after, at,
          w).b.(now := at)
    case StepTimeout(t, last, at, w) => TimeoutSection(b, t, b.threads[t].r, b.threads[t].p, last, at, w).b.(now := at)
    case StepAdmitExisting(t, snap, at, w) => AdmitExisting(b, t, b.threads[t], snap, at, w).b.(now := at)
    case StepSubmit(t, at, answer) => Submit(b, t, b.threads[t], at, answer).b.(now := at)
    case StepQuery(t, answer) => Query(b, t, b.threads[t], answer).b
    case StepBeginFinish(t) => BeginFinish(b, t, b.threads[t]).b
    case StepRecheck(t, snap, at) => Recheck(b, t, b.threads[t], snap, at).b.(now := at)
    case StepCommit(t, x) => Commit(b, t, b.threads[t], x).b.(now := x.now)
    case StepBind(session) => b.(session := session)
    case StepSnapshotBegin => b.(threads := b.threads[b.nextThread := Snapshotting([])], nextThread := b.nextThread + 1)
    case StepSnapshotObserve(t, p, i, at) => SnapshotObserved(b, t, p, i, at).(now := at)
    case StepReady(id) => b.(mem := b.mem.(profiles := b.mem.profiles[id := RuntimeOf(b.mem, id).(reserved := false)]))
    case StepSnapshotSave(t, w) => SnapshotSaved(b, t, w)
    case StepObserve(p, i, at) => b.(mem := Observe(b.mem, p, i, at), now := at)
    case StepDies(id) => b.(live := b.live - {id})
    case StepTick(at) => b.(now := at)
    case StepCrash => Crashed(b)
    case StepOpen(policy, epoch, w) => Opened(b, policy, epoch, w)
  }

  /** A step that cannot happen leaves the state alone, so every sequence of steps is a run. */
  function Next(b: Broker, s: Step): Broker {
    if Enabled(b, s) then Apply(b, s) else b
  }

  function Run(b: Broker, steps: seq<Step>): Broker
    decreases |steps|
  {
    if steps == [] then b else Next(Run(b, steps[..|steps| - 1]), steps[|steps| - 1])
  }

  const EMPTY_JOURNAL := Journal("", None, map[], map[])

  /** Before the broker was ever opened. */
  function Initial(policy: Policy, now: Time): Broker {
    Broker(policy, false, "", EMPTY_JOURNAL, EMPTY_JOURNAL, map[], map[], map[], 0, now, {}, [], {})
  }
}
