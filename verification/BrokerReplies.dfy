/**
  What the broker answers.  "Start not attempted" is the worker's own verdict: no
  record of the broker carries it and no call of the broker is answered with it.
*/
module BrokerReplies {
  import opened SparkTypes
  import opened BrokerRules
  import opened ExistingRules
  import opened Broker
  import opened BrokerSections
  import BrokerAuthority

  predicate Honest(r: Receipt) {
    r.stage != RestartStartNotAttempted
  }

  ghost predicate HonestJournal(j: Journal) {
    forall k :: k in j.attempts ==> Honest(j.attempts[k].receipt)
  }

  ghost predicate HonestOutcome(b: Broker, o: Outcome) {
    && HonestJournal(o.b.mem) && (o.b.disk == b.disk || HonestJournal(o.b.disk))
        && (o.reply.Some? ==> Honest(o.reply.value))
  }

  lemma AttemptHonest(j: Journal, id: JobId)
    requires HonestJournal(j)
    ensures Honest(AttemptOf(j, id).receipt)
  {
  }

  lemma PutHonest(b: Broker, id: JobId, a: Attempt)
    requires HonestJournal(b.mem) && Honest(a.receipt)
    ensures HonestJournal(Put(b, id, a).mem)
  {
  }

  lemma EvidenceHonest(b: Broker, r: ActionRequest, p: Profile, i: Instance, status: Status, stage: ReceiptStage,
                       at: Time)
    requires stage != RestartStartNotAttempted
    ensures Honest(EvidenceOf(b, r, p, i, status, stage, at))
  {
  }

  lemma SameAttemptsHonest(j: Journal, j': Journal)
    requires HonestJournal(j) && j'.attempts == j.attempts
    ensures HonestJournal(j')
  {
  }

  // ---------------------------------------------------------------- the rules

  lemma FinishHonest(j: Journal, a: Attempt)
    requires HonestJournal(j) && Honest(a.receipt)
    ensures HonestJournal(FinishStoppedStarts(j, a)) && HonestJournal(FinishParent(j, a))
  {
  }

  lemma CancelHonest(j: Journal, id: ProfileId)
    requires HonestJournal(j)
    ensures HonestJournal(CancelForStop(j, id))
  {
  }

  lemma LinksHonest(j: Journal, before: Journal, r: ActionRequest, i: Instance)
    requires HonestJournal(j)
    ensures HonestJournal(LinkStarts(j, r, i)) && HonestJournal(UndoLinks(j, before, r, i))
  {
    hide BoundByStop;
  }

  lemma ParentHonest(j: Journal, r: ActionRequest)
    requires HonestJournal(j)
    ensures HonestJournal(AdvanceParent(j, r)) && HonestJournal(AdvanceExistingParent(j, r))
  {
  }

  lemma PruneHonest(j: Journal, at: Time)
    requires HonestJournal(j)
    ensures HonestJournal(Prune(j, at))
  {
  }

  lemma ReconcileHonest(j: Journal, session: string, a: Attempt, p: Profile, i: Instance, at: Time)
    requires HonestJournal(j) && Honest(a.receipt)
    ensures var x := Reconcile(j, session, a, p, i, at); HonestJournal(x.0) && Honest(x.1.receipt)
  {
    hide FinishStoppedStarts, FinishParent, ObservedProfile, HonestJournal;
    var seen := Observe(j, p, i, at);
    SameAttemptsHonest(j, seen);
    SameAttemptsHonest(j, HoldReservation(seen, p.id, at));
    if a.stoppedBy.Some? && a.stoppedBy.value in seen.attempts {
      StoppedHonest(seen, a, seen.attempts[a.stoppedBy.value]);
    } else if a.request.action == Start {
      FinishHonest(seen, ReconcileStarted(seen, session, a, p, i, at).1);
    } else if a.request.action == Stop {
      FinishHonest(seen, ReconcileShutdown(seen, session, a, p, i, at).1);
    }
  }

  /** A start that waits for its stop takes its record from what the stop closes. */
  lemma StoppedHonest(j: Journal, a: Attempt, stop: Attempt)
    requires HonestJournal(j) && stop in j.attempts.Values && Honest(a.receipt)
    ensures HonestJournal(FinishStoppedStarts(j, stop)) && Honest(AttemptOf(FinishStoppedStarts(j, stop),
        a.request.jobId).receipt)
  {
    var k :| k in j.attempts && j.attempts[k] == stop;
    assert Honest(j.attempts[k].receipt);
    FinishHonest(j, stop);
    AttemptHonest(FinishStoppedStarts(j, stop), a.request.jobId);
  }

  // ---------------------------------------------------------------- the sections

  lemma FireHonest(b: Broker, t: nat, r: ActionRequest, p: Profile, i: Instance, a: Attempt, validatedAt: Time,
                   f: FinalInputs)
    requires HonestJournal(b.mem) && Honest(a.receipt)
    ensures HonestOutcome(b, Fire(b, t, r, p, i, a, validatedAt, f))
  {
    hide EvidenceReceipt, ObservedProfile, FinishParent, HonestJournal;
    var called := Called(b, t, r, p, validatedAt, f);
    if f.effect.None? {
      EvidenceHonest(called, r, p, i, StatusUnknown, SupervisorEffectUnconfirmed, f.effectAt);
      PutHonest(called, r.jobId, a.(receipt := EvidenceOf(called, r, p, i, StatusUnknown, SupervisorEffectUnconfirmed,
          f.effectAt)));
    } else {
      var seen := called.(mem := Observe(called.mem, p, f.effect.value, f.effectAt));
      var accepted := a.(receipt := EvidenceOf(seen, r, p, f.effect.value, StatusRunning, SupervisorCallAccepted,
          f.effectAt));
      EvidenceHonest(seen, r, p, f.effect.value, StatusRunning, SupervisorCallAccepted, f.effectAt);
      SameAttemptsHonest(called.mem, seen.mem);
      PutHonest(seen, r.jobId, accepted);
      FinishHonest(Put(seen, r.jobId, accepted).mem, accepted);
    }
  }

  lemma AdmittedHonest(b: Broker, r: ActionRequest, p: Profile, i: Instance, at: Time)
    requires HonestJournal(b.mem)
    ensures HonestJournal(AdmittedJournal(b, r, p, i, at)) && Honest(EffectAttempt(b, r, p, i, at).receipt)
  {
    hide LinkStarts, AdvanceParent, HonestJournal;
    var a := EffectAttempt(b, r, p, i, at);
    PutHonest(b, r.jobId, a);
    var recorded := Put(b, r.jobId, a).mem;
    LinksHonest(recorded, recorded, r, i);
    var linked := if r.action == Stop then LinkStarts(recorded, r, i) else recorded;
    ParentHonest(linked, r);
    SameAttemptsHonest(AdvanceParent(linked, r), AdmittedJournal(b, r, p, i, at));
  }

  lemma DropHonest(b: Broker, id: JobId)
    requires HonestJournal(b.mem)
    ensures HonestJournal(Drop(b, id).mem)
  {
  }

  lemma PublishedHonest(saved: Broker, before: Journal, t: nat, r: ActionRequest, p: Profile, i: Instance, a: Attempt,
                        validatedAt: Time, f: FinalInputs)
    requires HonestJournal(saved.mem) && Honest(a.receipt)
    ensures HonestOutcome(saved, Published(saved, before, t, r, p, i, a, validatedAt, f))
  {
    hide Fire, UndoLinks, HonestJournal;
    if f.firstSave != Synced {
      DropHonest(saved, r.jobId);
      LinksHonest(Drop(saved, r.jobId).mem, before, r, i);
    } else if f.effectAt >= r.deadline {
      var closed := a.(stage := Done, receipt := Rejection(r, DispatchExpired));
      PutHonest(saved, r.jobId, closed);
      LinksHonest(Put(saved, r.jobId, closed).mem, before, r, i);
    } else {
      FireHonest(saved, t, r, p, i, a, validatedAt, f);
    }
  }

  lemma RejectHonest(b: Broker, r: ActionRequest, code: Code, w: Write)
    requires HonestJournal(b.mem)
    ensures var o := RejectPreflight(b, r, code, w); HonestJournal(o.mem) && (o.disk == b.disk || HonestJournal(o.disk))
  {
  }

  lemma FinalHonest(b: Broker, t: nat, r: ActionRequest, p: Profile, i: Instance, validatedAt: Time, f: FinalInputs)
    requires HonestJournal(b.mem)
    ensures HonestOutcome(b, FinalSection(b, t, r, p, i, validatedAt, f))
  {
    hide AdmittedJournal, Published, EffectAttempt, RejectPreflight, HonestJournal;
    RejectHonest(b, r, EffectiveDefinitionDrift, f.firstSave);
    RejectHonest(b, r, DispatchExpired, f.firstSave);
    AdmittedHonest(b, r, p, i, f.admitAt);
    var saved := Saved(b.(mem := AdmittedJournal(b, r, p, i, f.admitAt)), f.firstSave);
    PublishedHonest(saved, b.mem, t, r, p, i, EffectAttempt(b, r, p, i, f.admitAt), validatedAt, f);
  }

  lemma DuplicateHonest(b: Broker, r: ActionRequest, p: Profile, e: EnterInputs)
    requires HonestJournal(b.mem) && r.jobId in b.mem.attempts
    ensures HonestOutcome(b, Duplicate(b, r, p, e))
  {
    hide Reconcile, HonestJournal;
    var prior := b.mem.attempts[r.jobId];
    AttemptHonest(b.mem, r.jobId);
    PutHonest(b, r.jobId, prior.(stage := Done, receipt := Rejection(r, StartPreflightInterrupted)));
    if e.probe.Probed? {
      ReconcileHonest(b.mem, b.session, prior, p, e.probe.instance, e.lookAt);
      var closed := Reconcile(b.mem, b.session, prior, p, e.probe.instance, e.lookAt);
      PutHonest(b.(mem := closed.0), r.jobId, closed.1);
    }
  }

  lemma SatisfiedHonest(b: Broker, r: ActionRequest, p: Profile, i: Instance, e: EnterInputs)
    requires HonestJournal(b.mem)
    ensures HonestOutcome(b, RecordSatisfied(b, r, p, i, e))
  {
    hide FinishStoppedStarts, HonestJournal;
    var done := NewAttempt(r, Done, i, EvidenceOf(b, r, p, i, StatusSucceeded, if r.action == Stop then ModelStopped
        else ModelStarted, e.validateAt), e.validateAt);
    PutHonest(b, r.jobId, done);
    FinishHonest(Put(b, r.jobId, done).mem, done);
  }

  lemma StartingHonest(b: Broker, r: ActionRequest, p: Profile, i: Instance, e: EnterInputs)
    requires HonestJournal(b.mem)
    ensures HonestOutcome(b, RecordStarting(b, r, p, i, e))
  {
    hide HonestJournal;
    PutHonest(b, r.jobId, NewAttempt(r, EffectAttempted, i,
        EvidenceOf(b, r, p, i, StatusRunning, ModelStarting, e.validateAt), e.validateAt));
  }

  lemma BeginHonest(b: Broker, t: nat, r: ActionRequest, p: Profile, i: Instance, e: EnterInputs)
    requires HonestJournal(b.mem) && r.jobId !in b.mem.attempts
    ensures HonestOutcome(b, BeginPreflight(b, t, r, p, i, e))
  {
    hide HonestJournal;
    var pending := NewAttempt(r, PreflightPending, i, EvidenceOf(b, r, p, i, StatusAccepted, StartPreflightPending,
        e.validateAt), e.validateAt);
    PutHonest(b, r.jobId, pending);
    DropHonest(Put(b, r.jobId, pending), r.jobId);
  }

  lemma DispatchHonest(b: Broker, t: nat, r: ActionRequest, p: Profile, i: Instance, e: EnterInputs)
    requires HonestJournal(b.mem) && r.jobId !in b.mem.attempts
    ensures HonestOutcome(b, Dispatch(b, t, r, p, i, e))
  {
    hide FinalSection, RecordSatisfied, RecordStarting, BeginPreflight, CancelForStop, HonestJournal;
    CancelHonest(b.mem, p.id);
    CancelKeys(b.mem, p.id);
    var admitted := if r.action == Stop then StopAdmission(b, p.id) else b;
    SatisfiedHonest(admitted, r, p, i, e);
    StartingHonest(admitted, r, p, i, e);
    BeginHonest(admitted, t, r, p, i, e);
    FinalHonest(admitted, t, r, p, i, e.validateAt, e.final);
  }

  lemma CancelKeys(j: Journal, id: ProfileId)
    ensures CancelForStop(j, id).attempts.Keys == j.attempts.Keys
  {
  }

  lemma EnterHonest(b: Broker, r: ActionRequest, bootId: string, e: EnterInputs)
    requires HonestJournal(b.mem)
    ensures HonestOutcome(b, Enter(b, r, bootId, e))
  {
    hide Duplicate, Dispatch, Validate, Prune, HonestJournal;
    var p := FindProfile(b.policy.profiles, r.params.profileId);
    AttemptHonest(b.mem, r.jobId);
    if p.Some? {
      var numbered := b.(nextThread := b.nextThread + 1);
      if r.jobId in b.mem.attempts {
        DuplicateHonest(numbered, r, p.value, e);
      } else {
        PruneHonest(b.mem, e.lookAt);
        BrokerAuthority.PruneShrinks(b.mem, e.lookAt);
        if e.probe.Probed? {
          var pruned := numbered.(mem := Prune(b.mem, e.lookAt));
          var seen := Validate(pruned.mem, b.policy, b.session, r, p.value, e.probe.instance, e.validateAt).0;
          ValidateQuiet(pruned.mem, b.policy, b.session, r, p.value, e.probe.instance, e.validateAt);
          SameAttemptsHonest(pruned.mem, seen);
          DispatchHonest(pruned.(mem := seen), b.nextThread, r, p.value, e.probe.instance, e);
        }
      }
    }
  }

  lemma ResumeCheckedHonest(b: Broker, t: nat, r: ActionRequest, p: Profile, i: Instance, x: ResumeInputs)
    requires HonestJournal(b.mem)
    ensures HonestOutcome(b, ResumeChecked(b, t, r, p, i, x))
  {
    hide FinalSection, Validate, PreflightOthers, RejectPreflight, HonestJournal;
    var validated := Validate(b.mem, b.policy, b.session, r, p, i, x.validateAt);
    ValidateQuiet(b.mem, b.policy, b.session, r, p, i, x.validateAt);
    BrokerAuthority.PreflightOthersLeaves(validated.0, b.policy.profiles, p, r.action == Restart, MemoryNeed(p),
        x.available, x.probes, x.validateAt);
    var walked := Preflight(validated.0, b.policy, p, r.action == Restart, x.available, x.portFree, x.probes,
        x.validateAt);
    SameAttemptsHonest(b.mem, validated.0);
    SameAttemptsHonest(b.mem, walked.0);
    if validated.1.Some? {
      RejectHonest(b.(mem := validated.0), r, validated.1.value, x.save);
    } else if walked.1.Some? {
      RejectHonest(b.(mem := walked.0), r, walked.1.value, x.save);
    } else {
      FinalHonest(b.(mem := walked.0), t, r, p, i, x.validateAt, x.final);
    }
  }

  lemma ResumeHonest(b: Broker, t: nat, th: Thread, x: ResumeInputs)
    requires HonestJournal(b.mem) && th.InPreflight?
    ensures HonestOutcome(b, Resume(b, t, th, x))
  {
    hide ResumeChecked, RejectPreflight, HonestJournal;
    var r := th.r;
    var back := Unregister(EndThread(b, t), t, th.p.id);
    PutHonest(back, r.jobId, NewAttempt(r, Done, th.i, Rejection(r, StartCancelledByStop), x.resumeAt));
    if x.weights.Some? {
      RejectHonest(back, r, x.weights.value, x.save);
    }
    RejectHonest(back, r, SupervisorIdentityUnavailable, x.save);
    if x.probe.Probed? {
      ResumeCheckedHonest(back, t, r, th.p, x.probe.instance, x);
    }
  }

  lemma TailRecordedHonest(b: Broker, r: ActionRequest, p: Profile, after: Instance, a: Attempt, at: Time)
    requires HonestJournal(b.mem) && Honest(a.receipt)
    ensures HonestJournal(TailRecorded(b, r, p, after, a, at).mem) && Honest(TailAttempt(b, a, r, p, after, at).receipt)
        && TailRecorded(b, r, p, after, a, at).disk == b.disk
  {
    hide FinishStoppedStarts, FinishParent, HonestJournal;
    var finished := TailAttempt(b, a, r, p, after, at);
    var held := b.(mem := if r.action == Restart then HoldReservation(b.mem, p.id, at) else b.mem);
    SameAttemptsHonest(b.mem, held.mem);
    PutHonest(held, r.jobId, finished);
    var stored := Put(held, r.jobId, finished).mem;
    FinishHonest(stored, finished);
    FinishHonest(FinishStoppedStarts(stored, finished), finished);
  }

  lemma TailHonest(b: Broker, t: nat, r: ActionRequest, p: Profile, after: Instance, at: Time, w: Write)
    requires HonestJournal(b.mem)
    ensures HonestOutcome(b, TailSection(b, t, r, p, after, at, w))
  {
    hide TailRecorded, TailAttempt, ObservedProfile, HonestJournal, StopCancelled;
    var a := AttemptOf(b.mem, r.jobId);
    AttemptHonest(b.mem, r.jobId);
    var seen := EndThread(b, t).(mem := Observe(b.mem, p, after, at));
    SameAttemptsHonest(b.mem, seen.mem);
    TailRecordedHonest(seen, r, p, after, a, at);
  }

  lemma TimeoutHonest(b: Broker, t: nat, r: ActionRequest, p: Profile, last: Instance, at: Time, w: Write)
    requires HonestJournal(b.mem)
    ensures HonestOutcome(b, TimeoutSection(b, t, r, p, last, at, w))
  {
    hide EvidenceReceipt, HonestJournal;
    EvidenceHonest(b, r, p, last, StatusUnknown, StopObservationTimeout, at);
    PutHonest(EndThread(b, t), r.jobId, AttemptOf(b.mem, r.jobId)
        .(receipt := EvidenceOf(b, r, p, last, StatusUnknown, StopObservationTimeout, at)));
  }

  lemma AdmitHonest(b: Broker, t: nat, th: Thread, snap: Option<Snapshot>, at: Time, w: Write)
    requires HonestJournal(b.mem) && th.ObservingExisting?
    ensures HonestOutcome(b, AdmitExisting(b, t, th, snap, at, w))
  {
    hide AdmitSeen, ObservedProfile, HonestJournal;
    if snap.Some? {
      var ended := EndThread(b, t);
      var seen := ended.(mem := Observe(ended.mem, th.p, SnapshotInstance(snap.value, th.p), at));
      SameAttemptsHonest(b.mem, seen.mem);
      AdmitSeenHonest(seen, t, th.r, th.p, snap.value, th.authority, at, w);
    }
  }

  lemma AdmitSeenHonest(b: Broker, t: nat, r: ActionRequest, p: Profile, snap: Snapshot, authority: Authority, at: Time,
                        w: Write)
    requires HonestJournal(b.mem)
    ensures HonestOutcome(b, AdmitSeen(b, t, r, p, snap, authority, at, w))
  {
    hide ExistingRefusal, BackendRequestFor, AdvanceExistingParent, HonestJournal, SnapshotInstance;
    var before := SnapshotInstance(snap, p);
    var a := NewAttempt(r, ExistingAttempted, before, EvidenceOf(b, r, p, before, StatusUnknown, EffectAttemptedReceipt,
        at), at)
               .(backendRequest := Some(BackendRequestFor(r, p, snap, authority)));
    PutHonest(b, r.jobId, a);
    ParentHonest(Put(b, r.jobId, a).mem, r);
  }

  lemma JudgedHonest(b: Broker, a: Attempt, r: ActionRequest, p: Profile, backend: BackendReceipt,
                     current: Option<Snapshot>, i: Instance, at: Time)
    ensures Honest(Judged(b, a, r, p, backend, current, i, at).receipt)
  {
    hide StopProven, StartProven, ObservedProfile;
  }

  lemma CancelledHonest(j: Journal, a: Attempt, r: ActionRequest, p: Profile, backend: BackendReceipt, stopId: JobId)
    requires HonestJournal(j) && Honest(a.receipt)
    ensures Honest(CancelledByStop(j, a, r, p, backend, stopId).receipt)
  {
  }

  lemma SettledHonest(b: Broker, r: ActionRequest, p: Profile, backend: BackendReceipt, a: Attempt,
                      current: Option<Snapshot>, x: CommitInputs)
    requires HonestJournal(b.mem)
    ensures Honest(Settled(b, r, p, backend, a, current, x).receipt)
  {
    hide Judged, CancelledByStop, HonestJournal;
    var taken := if current.Some? then a.(backendSnapshot := current, accepted := a.accepted + [current.value]) else a;
    var judged := Judged(b, taken, r, p, backend, current, JudgedInstance(a, p, current), x.now)
        .(backendReceipt := Some(backend));
    JudgedHonest(b, taken, r, p, backend, current, JudgedInstance(a, p, current), x.now);
    CancelledHonest(b.mem, judged, r, p, backend, x.stopId);
  }

  lemma CloseStartsHonest(j: Journal, stop: Receipt, p: Profile, backend: BackendReceipt)
    requires HonestJournal(j) && Honest(stop)
    ensures HonestJournal(CloseStarts(j, stop, p, backend))
  {
  }

  lemma CommitHonest(b: Broker, t: nat, th: Thread, x: CommitInputs)
    requires HonestJournal(b.mem) && th.Committing?
    ensures HonestOutcome(b, Commit(b, t, th, x))
  {
    hide Settled, CloseStarts, FinishParent, ObservedProfile, HonestJournal, CommitBlocked, JudgedInstance;
    var a := AttemptOf(b.mem, th.r.jobId);
    AttemptHonest(b.mem, th.r.jobId);
    var current := UsableSnapshot(b, a, th.p, th.current);
    var ended := EndThread(b, t);
    var seen := if current.Some? then ended.(mem := Observe(ended.mem, th.p, JudgedInstance(a, th.p, current), x.now))
        else ended;
    SameAttemptsHonest(b.mem, seen.mem);
    SettledHonest(seen, th.r, th.p, th.backend, a, current, x);
    var settled := Settled(seen, th.r, th.p, th.backend, a, current, x);
    PutHonest(seen, th.r.jobId, settled);
    var stored := Put(seen, th.r.jobId, settled).mem;
    CloseStartsHonest(stored, settled.receipt, th.p, th.backend);
    FinishHonest(CloseStarts(stored, settled.receipt, th.p, th.backend), settled);
  }

  // ---------------------------------------------------------------- every step

  /** What the caller of a section is answered, if the section ends its call. */
  function ReplyOf(b: Broker, s: Step): Option<Receipt>
    requires Enabled(b, s)
  {
    match s
    case StepEnter(r, bootId, e) => Enter(b, r, bootId, e).reply
    case StepResume(t, x) => Resume(b, t, b.threads[t], x).reply
    case StepTail(t, verified, at, w) =>
      var th := b.threads[t];
      TailSection(b, t, th.r, th.p, if SupervisorAction(th.r.action) == Stop then verified else th.after, at, w).reply
    case StepTimeout(t, last, at, w) => TimeoutSection(b, t, b.threads[t].r, b.threads[t].p, last, at, w).reply
    case StepAdmitExisting(t, snap, at, w) => AdmitExisting(b, t, b.threads[t], snap, at, w).reply
    case StepSubmit(t, at, answer) => Submit(b, t, b.threads[t], at, answer).reply
    case StepQuery(t, answer) => Query(b, t, b.threads[t], answer).reply
    case StepBeginFinish(t) => BeginFinish(b, t, b.threads[t]).reply
    case StepRecheck(t, snap, at) => Recheck(b, t, b.threads[t], snap, at).reply
    case StepCommit(t, x) => Commit(b, t, b.threads[t], x).reply
    case _ => None
  }

  ghost predicate AllHonest(b: Broker) {
    HonestJournal(b.mem) && HonestJournal(b.disk)
  }

  lemma SmallHonest(b: Broker, s: Step)
    requires AllHonest(b) && Enabled(b, s) && (Small(s) || s.StepSubmit?)
    ensures AllHonest(Apply(b, s)) && (ReplyOf(b, s).Some? ==> Honest(ReplyOf(b, s).value))
  {
    hide ObservedProfile, Enter, Resume, TailSection, TimeoutSection, AdmitExisting, Commit, Crashed, Opened,
        HonestJournal;
    SameAttemptsHonest(b.mem, Apply(b, s).mem);
    if CallOf(b, s) in b.threads && !b.threads[CallOf(b, s)].Snapshotting? {
      AttemptHonest(b.mem, b.threads[CallOf(b, s)].r.jobId);
    }
  }

  /** Every step keeps the records honest and gives an honest answer, if any. */
  lemma StepHonest(b: Broker, s: Step)
    requires AllHonest(b) && Enabled(b, s) && Section(s)
    ensures AllHonest(Apply(b, s)) && (ReplyOf(b, s).Some? ==> Honest(ReplyOf(b, s).value))
  {
    hide Enter, Resume, TailSection, TimeoutSection, AdmitExisting, Commit, HonestJournal, Submit, Query, BeginFinish,
        Recheck, SnapshotObserved, SnapshotSaved, Crashed, Opened;
    match s
    case StepEnter(r, bootId, e) => EnterHonest(b, r, bootId, e);
    case StepResume(t, x) => ResumeHonest(b, t, b.threads[t], x);
    case StepTail(t, verified, at, w) =>
      var th := b.threads[t];
      TailHonest(b, t, th.r, th.p, if SupervisorAction(th.r.action) == Stop then verified else th.after, at, w);
    case StepTimeout(t, last, at, w) => TimeoutHonest(b, t, b.threads[t].r, b.threads[t].p, last, at, w);
    case StepAdmitExisting(t, snap, at, w) => AdmitHonest(b, t, b.threads[t], snap, at, w);
    case StepCommit(t, x) => CommitHonest(b, t, b.threads[t], x);
    case _ => SmallHonest(b, s);
  }

  lemma RestartHonest(b: Broker, s: Step)
    requires AllHonest(b) && Enabled(b, s) && !Section(s)
    ensures AllHonest(Apply(b, s))
  {
    hide Enter, Resume, TailSection, TimeoutSection, AdmitExisting, Submit, Query, BeginFinish, Recheck, Commit,
        SnapshotObserved, SnapshotSaved;
  }

  lemma NextHonest(b: Broker, s: Step)
    requires AllHonest(b)
    ensures AllHonest(Next(b, s)) && (Enabled(b, s) && Section(s) && ReplyOf(b, s).Some? ==>
        Honest(ReplyOf(b, s).value))
  {
    hide AllHonest, Apply, Enabled, ReplyOf;
    if Enabled(b, s) {
      if Section(s) {
        StepHonest(b, s);
      } else {
        RestartHonest(b, s);
      }
    }
  }

  lemma {:induction false} RunHonest(b: Broker, steps: seq<Step>)
    requires AllHonest(b)
    ensures AllHonest(Run(b, steps))
    decreases |steps|
  {
    hide AllHonest, Next;
    if steps != [] {
      RunHonest(b, steps[..|steps| - 1]);
      NextHonest(Run(b, steps[..|steps| - 1]), steps[|steps| - 1]);
    }
  }

  /** Over every run, no call of the broker is answered with "start not attempted". */
  lemma RepliesAreHonest(policy: Policy, now: Time, steps: seq<Step>, s: Step)
    requires var b := Run(Initial(policy, now), steps); Enabled(b, s) && Section(s) && ReplyOf(b, s).Some?
    ensures ReplyOf(Run(Initial(policy, now), steps), s).value.stage != RestartStartNotAttempted
  {
    hide Run, ReplyOf, Enabled;
    RunHonest(Initial(policy, now), steps);
    NextHonest(Run(Initial(policy, now), steps), s);
  }
}
