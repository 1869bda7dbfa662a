/**
  Linked starts of a restart on the direct path.  A restart that was advanced by
  its linked start, or is finished, is taken back to "stopped" by one kind of step
  only: the late tail of its own call.  So a second linked start of one restart is
  called only after such a tail, or after its finished record was dropped when a
  day old.
*/
module BrokerRestarts {
  import opened SparkTypes
  import opened BrokerRules
  import opened ExistingRules
  import opened Broker
  import opened BrokerJournal
  import opened BrokerSections
  import opened BrokerRecords
  import BrokerOnce
  import BrokerAuthority
  import BrokerStops

  /** The tail of the call that owns record `id` writes its outcome. */
  predicate Reopens(b: Broker, s: Step, id: JobId) {
    s.StepTail? && OwnEnding(b, s, id) && !StopCancelled(AttemptOf(b.mem, id)) && AttemptOf(b.mem, id).stoppedBy.None?
  }

  predicate Waiting(j: Journal, id: JobId) {
    id in j.attempts && j.attempts[id].stage == RestartStopped
  }

  predicate Advanced(j: Journal, id: JobId) {
    id in j.attempts && Final(j.attempts[id])
  }

  // ---------------------------------------------------------------- one step

  /** What a tail closes is done; its own record has the stage of its outcome or is done. */
  lemma TailRecordedStage(b: Broker, r: ActionRequest, p: Profile, after: Instance, a: Attempt, at: Time)
    ensures var o, finished := TailRecorded(b, r, p, after, a, at), TailAttempt(b, a, r, p, after, at);
            && r.jobId in o.mem.attempts && (o.mem.attempts[r.jobId].stage == finished.stage
                || o.mem.attempts[r.jobId].stage == Done)
            && (finished.stage == RestartStopped ==> o.mem.attempts[r.jobId].stage == RestartStopped)
  {
    hide TailAttempt, StoppedStartReceipt, SameAuthority;
  }

  lemma TailStage(b: Broker, a: Attempt, r: ActionRequest, p: Profile, after: Instance, at: Time)
    ensures TailAttempt(b, a, r, p, after, at).stage == RestartStopped <==> r.action == Restart
  {
  }

  lemma TailReopens(b: Broker, t: nat, r: ActionRequest, p: Profile, after: Instance, at: Time, w: Write)
    requires Advanced(b.mem, r.jobId)
    ensures var a := b.mem.attempts[r.jobId];
            Waiting(TailSection(b, t, r, p, after, at, w).b.mem, r.jobId) <==>
                !StopCancelled(a) && a.stoppedBy.None? && r.action == Restart
  {
    hide TailSection, TailRecorded, TailAttempt, StopCancelled, ObservedProfile;
    TailForms(b, t, r, p, after, at, w);
    var a := b.mem.attempts[r.jobId];
    if !(StopCancelled(a) || a.stoppedBy.Some?) {
      var seen := EndThread(b, t).(mem := Observe(b.mem, p, after, at));
      TailRecordedStage(seen, r, p, after, a, at);
      TailStage(seen, a, r, p, after, at);
    }
  }

  lemma TimeoutKeepsStage(b: Broker, t: nat, r: ActionRequest, p: Profile, last: Instance, at: Time, w: Write)
    requires Advanced(b.mem, r.jobId)
    ensures var b' := TimeoutSection(b, t, r, p, last, at, w).b;
            Advanced(b'.mem, r.jobId) && !Waiting(b'.mem, r.jobId) && (b'.disk == b.disk || b'.disk == b'.mem)
  {
    hide EvidenceReceipt;
  }

  /** An advanced or finished record goes back to "stopped" exactly when the tail of its own restart call ends,
      unless a stop cancelled the record or is to resolve it. */
  lemma GoesBackExactly(b: Broker, s: Step, id: JobId)
    requires ShapedJournal(b.mem) && Enabled(b, s) && Section(s) && Advanced(b.mem, id)
    ensures Waiting(Apply(b, s).mem, id) <==> Reopens(b, s, id) && b.threads[s.t].r.action == Restart
  {
    hide Enter, Resume, AdmitExisting, Commit, TailSection, TimeoutSection, StopCancelled, ShapedJournal;
    if OwnEnding(b, s, id) {
      var th := b.threads[s.t];
      match s
      case StepTail(t, verified, at, w) =>
        TailReopens(b, t, th.r, th.p, if SupervisorAction(th.r.action) == Stop then verified else th.after, at, w);
      case StepTimeout(t, last, at, w) => TimeoutKeepsStage(b, t, th.r, th.p, last, at, w);
    } else {
      StepTidy(b, s, id);
    }
  }

  /** The step drops the finished record of `id` after a day. */
  predicate Forgets(b: Broker, s: Step, id: JobId) {
    && id in b.mem.attempts && b.mem.attempts[id].at < Next(b, s).now - DAY
    && (id !in Next(b, s).mem.attempts || id !in Next(b, s).disk.attempts)
  }

  /** Memory and file both hold the record of `id` advanced or finished. */
  predicate Shut(b: Broker, id: JobId) {
    Advanced(b.mem, id) && Advanced(b.disk, id)
  }

  lemma TailKeepsShut(b: Broker, s: Step, id: JobId)
    requires Enabled(b, s) && OwnEnding(b, s, id) && Shut(b, id) && !Reopens(b, s, id)
    ensures Shut(Apply(b, s), id)
  {
    hide Enter, Resume, AdmitExisting, Commit, TailSection, TimeoutSection, StopCancelled;
    var th := b.threads[s.t];
    match s
    case StepTail(t, verified, at, w) =>
      TailForms(b, t, th.r, th.p, if SupervisorAction(th.r.action) == Stop then verified else th.after, at, w);
    case StepTimeout(t, last, at, w) => TimeoutKeepsStage(b, t, th.r, th.p, last, at, w);
  }

  lemma RestartKeepsShut(b: Broker, s: Step, id: JobId)
    requires Enabled(b, s) && !Section(s) && Shut(b, id)
    ensures Shut(Apply(b, s), id)
  {
    hide Enter, Resume, TailSection, TimeoutSection, AdmitExisting, Submit, Query, BeginFinish, Recheck, Commit,
        SnapshotObserved, SnapshotSaved;
  }

  /** Nothing else opens a restart again. */
  lemma ShutStays(b: Broker, s: Step, id: JobId)
    requires ShapedJournal(b.mem) && Shut(b, id) && !Reopens(b, s, id) && !Forgets(b, s, id)
    ensures Shut(Next(b, s), id)
  {
    hide Apply, Enabled, ShapedJournal, StopCancelled;
    if Enabled(b, s) {
      if !Section(s) {
        RestartKeepsShut(b, s, id);
      } else if OwnEnding(b, s, id) {
        TailKeepsShut(b, s, id);
      } else {
        StepTidy(b, s, id);
      }
    }
  }

  // ---------------------------------------------------------------- the linked start itself

  predicate LinkedStart(e: Act, id: JobId) {
    e.Effect? && e.request.action == Start && e.request.parentJobId == Some(id)
  }

  lemma FireKeepsOthers(b: Broker, t: nat, r: ActionRequest, p: Profile, i: Instance, a: Attempt, validatedAt: Time,
                        f: FinalInputs, id: JobId)
    requires a.stage == EffectAttempted && id != r.jobId && Shut(b, id)
    ensures Shut(Fire(b, t, r, p, i, a, validatedAt, f).b, id)
  {
    hide EvidenceReceipt, ObservedProfile, FinishParent;
    if f.effect.Some? {
      var called := Called(b, t, r, p, validatedAt, f);
      var seen := called.(mem := Observe(called.mem, p, f.effect.value, f.effectAt));
      var accepted := a.(receipt := EvidenceOf(seen, r, p, f.effect.value, StatusRunning, SupervisorCallAccepted,
          f.effectAt));
      FinishParentWaits(Put(seen, r.jobId, accepted).mem, accepted);
    }
  }

  /** A linked start is called only for a stopped restart, and leaves it advanced in memory and in the file. */
  lemma FinalLinked(b: Broker, t: nat, r: ActionRequest, p: Profile, i: Instance, validatedAt: Time, f: FinalInputs,
                    id: JobId)
    requires Unrecorded(b.mem, r) && r.parentJobId == Some(id)
    ensures var o := FinalSection(b, t, r, p, i, validatedAt, f).b; o.acts != b.acts ==>
            Waiting(b.mem, id) && Shut(o, id)
  {
    hide AdmittedJournal, Published, EffectAttempt, RejectPreflight;
    if f.definition == Some(p.definitionHash) && f.admitAt < r.deadline && ParentStopped(b.mem, r, p) {
      var saved := Saved(b.(mem := AdmittedJournal(b, r, p, i, f.admitAt)), f.firstSave);
      var a := EffectAttempt(b, r, p, i, f.admitAt);
      BrokerAuthority.PublishedActs(saved, b.mem, t, r, p, i, a, validatedAt, f);
      if f.firstSave == Synced && f.effectAt < r.deadline {
        BrokerAuthority.AdmittedRest(b, r, p, i, f.admitAt);
        EffectAttemptNew(b, r, p, i, f.admitAt);
        FireKeepsOthers(saved, t, r, p, i, a, validatedAt, f, id);
        PublishedFires(saved, b.mem, t, r, p, i, a, validatedAt, f);
      }
    }
  }

  lemma PublishedFires(saved: Broker, before: Journal, t: nat, r: ActionRequest, p: Profile, i: Instance, a: Attempt,
                       validatedAt: Time, f: FinalInputs)
    requires f.firstSave == Synced && f.effectAt < r.deadline
    ensures Published(saved, before, t, r, p, i, a, validatedAt, f) == Fire(saved, t, r, p, i, a, validatedAt, f)
  {
    hide Fire;
  }

  lemma ResumeCheckedLinked(b: Broker, t: nat, r: ActionRequest, p: Profile, i: Instance, x: ResumeInputs, id: JobId)
    requires Unrecorded(b.mem, r) && r.parentJobId == Some(id)
    ensures var o := ResumeChecked(b, t, r, p, i, x).b; o.acts != b.acts ==> Waiting(b.mem, id) && Shut(o, id)
  {
    hide FinalSection, RejectPreflight, PreflightOthers, Validate;
    var validated := Validate(b.mem, b.policy, b.session, r, p, i, x.validateAt);
    ValidateQuiet(b.mem, b.policy, b.session, r, p, i, x.validateAt);
    BrokerAuthority.PreflightOthersLeaves(validated.0, b.policy.profiles, p, r.action == Restart, MemoryNeed(p),
        x.available, x.probes, x.validateAt);
    var walked := Preflight(validated.0, b.policy, p, r.action == Restart, x.available, x.portFree, x.probes,
        x.validateAt);
    FinalLinked(b.(mem := walked.0), t, r, p, i, x.validateAt, x.final, id);
  }

  lemma ResumeLinked(b: Broker, t: nat, th: Thread, x: ResumeInputs, id: JobId)
    requires th.InPreflight? && th.r.parentJobId == Some(id)
    ensures var o := Resume(b, t, th, x).b; o.acts != b.acts ==> Waiting(b.mem, id) && Shut(o, id)
  {
    hide ResumeChecked, RejectPreflight;
    var back := Unregister(EndThread(b, t), t, th.p.id);
    if Unrecorded(back.mem, th.r) && x.probe.Probed? {
      ResumeCheckedLinked(back, t, th.r, th.p, x.probe.instance, x, id);
    }
  }

  lemma EnterStartSilent(b: Broker, r: ActionRequest, bootId: string, e: EnterInputs)
    requires r.action == Start
    ensures Enter(b, r, bootId, e).b.acts == b.acts
  {
    hide Duplicate, Validate, Prune, FinalSection, EnterExisting, RecordSatisfied, RecordStarting, BeginPreflight;
  }

  /** The step that calls a linked start. */
  lemma StepLinked(b: Broker, s: Step, id: JobId)
    requires BrokerAuthority.AuthorityInv(b) && Enabled(b, s) && Section(s)
    requires |Apply(b, s).acts| > |b.acts| && LinkedStart(Apply(b, s).acts[|b.acts|], id)
    ensures Waiting(b.mem, id) && Shut(Apply(b, s), id)
  {
    hide Enter, Resume, TailSection, TimeoutSection, AdmitExisting, Query, BeginFinish, Recheck, Commit,
        SnapshotObserved, SnapshotSaved, BrokerAuthority.Authorized;
    if s.StepSubmit? {
      SubmitIsNoEffect(b, s);
    } else {
      BrokerAuthority.StepAuthorized(b, s);
      if s.StepEnter? {
        EnterStartSilent(b, s.r, s.bootId, s.enter);
      } else if s.StepResume? {
        ResumeLinked(b, s.t, b.threads[s.t], s.resume, id);
      }
    }
  }

  lemma SubmitIsNoEffect(b: Broker, s: Step)
    requires Enabled(b, s) && s.StepSubmit?
    ensures |Apply(b, s).acts| <= |b.acts| + 1 && (|Apply(b, s).acts| > |b.acts| ==>
        !Apply(b, s).acts[|b.acts|].Effect?)
  {
    hide Enter, Resume, TailSection, TimeoutSection, AdmitExisting, Query, BeginFinish, Recheck, Commit,
        SnapshotObserved, SnapshotSaved;
  }

  lemma ActsGrowByOne(b: Broker, s: Step)
    requires BrokerOnce.Inv(b) && BrokerAuthority.AuthorityInv(b)
    ensures b.acts <= Next(b, s).acts && |Next(b, s).acts| <= |b.acts| + 1
    ensures |Next(b, s).acts| > |b.acts| ==> Enabled(b, s) && Section(s)
  {
    hide Apply, BrokerOnce.Inv, BrokerAuthority.AuthorityInv;
    BrokerStops.ActsGrow(b, s);
    if Enabled(b, s) {
      if !Section(s) {
        RestartSilent(b, s);
      } else if s.StepSubmit? {
        SubmitIsNoEffect(b, s);
      } else {
        BrokerAuthority.StepAuthorized(b, s);
      }
    }
  }

  lemma RestartSilent(b: Broker, s: Step)
    requires Enabled(b, s) && !Section(s)
    ensures Apply(b, s).acts == b.acts
  {
    hide Enter, Resume, TailSection, TimeoutSection, AdmitExisting, Submit, Query, BeginFinish, Recheck, Commit,
        SnapshotObserved, SnapshotSaved;
  }

  // ---------------------------------------------------------------- over runs

  /** Step `n` of the run, taken when more than `lo` and at most `hi` acts were made, finds restart `id` advanced or
      finished and opens it again or drops its record. */
  predicate LetsGo(b: Broker, steps: seq<Step>, n: nat, id: JobId, lo: nat, hi: nat)
    requires n < |steps|
  {
    var before := Run(b, steps[..n]);
    lo < |before.acts| <= hi && Shut(before, id) && (Reopens(before, steps[n], id) || Forgets(before, steps[n], id))
  }

  ghost predicate LetGo(b: Broker, steps: seq<Step>, id: JobId, lo: nat, hi: nat) {
    exists n :: 0 <= n < |steps| && LetsGo(b, steps, n, id, lo, hi)
  }

  lemma LetGoEarlier(b: Broker, steps: seq<Step>, id: JobId, lo: nat, hi: nat)
    requires steps != [] && LetGo(b, steps[..|steps| - 1], id, lo, hi)
    ensures forall high :: hi <= high ==> LetGo(b, steps, id, lo, high)
  {
    hide Reopens, Forgets, Run, Shut;
    var front := steps[..|steps| - 1];
    var n :| 0 <= n < |front| && LetsGo(b, front, n, id, lo, hi);
    assert front[..n] == steps[..n] && front[n] == steps[n];
    forall high | hi <= high
      ensures LetGo(b, steps, id, lo, high)
    {
      assert LetsGo(b, steps, n, id, lo, high);
    }
  }

  lemma LetGoNow(b: Broker, steps: seq<Step>, id: JobId, lo: nat, hi: nat)
    requires steps != []
    requires var before, s := Run(b, steps[..|steps| - 1]), steps[|steps| - 1];
             lo < |before.acts| <= hi && Shut(before, id) && (Reopens(before, s, id) || Forgets(before, s, id))
    ensures LetGo(b, steps, id, lo, hi)
  {
    hide Reopens, Forgets, Run, Shut;
    assert LetsGo(b, steps, |steps| - 1, id, lo, hi);
  }

  lemma RunSnoc(b: Broker, steps: seq<Step>)
    requires steps != []
    ensures Run(b, steps) == Next(Run(b, steps[..|steps| - 1]), steps[|steps| - 1])
  {
    hide Next;
  }

  /** After its linked start, a restart stays advanced or finished until it is let go. */
  lemma {:induction false} StaysShut(b: Broker, steps: seq<Step>, id: JobId, i: nat)
    requires BrokerOnce.Inv(b) && BrokerAuthority.AuthorityInv(b) && |b.acts| <= i < |Run(b, steps).acts|
        && LinkedStart(Run(b, steps).acts[i], id)
    ensures Shut(Run(b, steps), id) || LetGo(b, steps, id, i, |Run(b, steps).acts|)
    decreases |steps|
  {
    hide BrokerOnce.Inv, BrokerAuthority.AuthorityInv, Shut, Reopens, Forgets, Next, LinkedStart, LetGo, Run, Apply,
        Enabled, ShapedJournal;
    RunNone(b);
    var front, s := steps[..|steps| - 1], steps[|steps| - 1];
    var before := Run(b, front);
    RunSnoc(b, steps);
    BrokerOnce.RunKeepsInv(b, front);
    BrokerAuthority.RunKeepsAuthority(b, front);
    ActsGrowByOne(before, s);
    if i < |before.acts| {
      assert before.acts[i] == Run(b, steps).acts[i];
      StaysShut(b, front, id, i);
      if LetGo(b, front, id, i, |before.acts|) {
        LetGoEarlier(b, steps, id, i, |before.acts|);
      } else if Reopens(before, s, id) || Forgets(before, s, id) {
        LetGoNow(b, steps, id, i, |Run(b, steps).acts|);
      } else {
        InvShaped(before);
        ShutStays(before, s, id);
      }
    } else {
      NextApplies(before, s);
      StepLinked(before, s, id);
    }
  }

  lemma {:induction false} RunActsGrow(b: Broker, steps: seq<Step>)
    requires BrokerOnce.Inv(b)
    ensures b.acts <= Run(b, steps).acts
    decreases |steps|
  {
    hide BrokerOnce.Inv, Next;
    if steps != [] {
      RunActsGrow(b, steps[..|steps| - 1]);
      BrokerOnce.RunKeepsInv(b, steps[..|steps| - 1]);
      BrokerStops.ActsGrow(Run(b, steps[..|steps| - 1]), steps[|steps| - 1]);
    }
  }

  lemma RunNone(b: Broker)
    ensures Run(b, []) == b
  {
  }

  lemma InvShaped(b: Broker)
    requires BrokerOnce.Inv(b)
    ensures ShapedJournal(b.mem)
  {
    hide ShapedJournal;
  }

  lemma NextApplies(b: Broker, s: Step)
    requires Enabled(b, s)
    ensures Next(b, s) == Apply(b, s)
  {
    hide Apply, Enabled;
  }

  lemma {:induction false} SecondNeedsLettingGo(b: Broker, steps: seq<Step>, id: JobId, i: nat, j: nat)
    requires BrokerOnce.Inv(b) && BrokerAuthority.AuthorityInv(b) && |b.acts| <= i < j < |Run(b, steps).acts|
    requires LinkedStart(Run(b, steps).acts[i], id) && LinkedStart(Run(b, steps).acts[j], id)
    ensures LetGo(b, steps, id, i, j)
    decreases |steps|
  {
    hide BrokerOnce.Inv, BrokerAuthority.AuthorityInv, Reopens, Forgets, Next, LinkedStart, LetGo, Run, Shut, Apply,
        Enabled, Waiting;
    RunNone(b);
    var front, s := steps[..|steps| - 1], steps[|steps| - 1];
    var before := Run(b, front);
    RunSnoc(b, steps);
    BrokerOnce.RunKeepsInv(b, front);
    BrokerAuthority.RunKeepsAuthority(b, front);
    ActsGrowByOne(before, s);
    assert before.acts[i] == Run(b, steps).acts[i];
    if j < |before.acts| {
      assert before.acts[j] == Run(b, steps).acts[j];
      SecondNeedsLettingGo(b, front, id, i, j);
    } else {
      StaysShut(b, front, id, i);
      NextApplies(before, s);
      StepLinked(before, s, id);
      ShutIsNotWaiting(before, id);
    }
    LetGoEarlier(b, steps, id, i, j);
  }

  lemma ShutIsNotWaiting(b: Broker, id: JobId)
    requires Waiting(b.mem, id)
    ensures !Shut(b, id)
  {
  }

  /** Over every run: if two linked starts of one restart are called, then between them the tail of the restart's own
      call took it back to "stopped", or its finished record was dropped when a day old. */
  lemma SecondStartNeedsTail(policy: Policy, now: Time, steps: seq<Step>, id: JobId, i: nat, j: nat)
    requires i < j < |Run(Initial(policy, now), steps).acts|
    requires LinkedStart(Run(Initial(policy, now), steps).acts[i], id)
        && LinkedStart(Run(Initial(policy, now), steps).acts[j], id)
    ensures LetGo(Initial(policy, now), steps, id, i, j)
  {
    hide Run, BrokerOnce.Inv, BrokerAuthority.AuthorityInv, LinkedStart, LetGo;
    BrokerAuthority.InitiallyAuthorized(policy, now);
    SecondNeedsLettingGo(Initial(policy, now), steps, id, i, j);
  }

  // ---------------------------------------------------------------- linked starts submitted to the second coordinator

  /** A call is about to submit request `c`, or `c` was submitted. */
  ghost predicate Token(b: Broker, c: ActionRequest) {
    || (exists t :: t in b.threads && b.threads[t].Submitting? && b.threads[t].r == c)
    || (exists i :: 0 <= i < |b.acts| && b.acts[i].Submission? && b.acts[i].request == c)
  }

  lemma AdmitSeenLinked(b: Broker, t: nat, r: ActionRequest, p: Profile, snap: Snapshot, authority: Authority, at: Time,
                        w: Write, id: JobId)
    requires t !in b.threads && r.jobId !in b.mem.attempts && r.parentJobId == Some(id)
    ensures var o := AdmitSeen(b, t, r, p, snap, authority, at, w).b; t in o.threads ==>
            Waiting(b.mem, id) && Shut(o, id)
  {
    hide ExistingRefusal, BackendRequestFor, EvidenceReceipt, SnapshotInstance;
    if ExistingRefusal(b, r, p, snap, authority, at).None? {
      ExistingRefusalQuiet(b, r, p, snap, authority, at);
    }
  }

  /** A linked start gets ready to be submitted only for a stopped restart, and leaves it advanced in memory and in
      the file. */
  lemma AdmitLinked(b: Broker, s: Step, id: JobId)
    requires Enabled(b, s) && s.StepAdmitExisting? && b.threads[s.t].r.parentJobId == Some(id)
    ensures s.t in Apply(b, s).threads ==> Waiting(b.mem, id) && Shut(Apply(b, s), id)
  {
    hide AdmitSeen, ObservedProfile, SnapshotInstance;
    var th := b.threads[s.t];
    if s.snap.Some? && th.r.jobId !in b.mem.attempts {
      var ended := EndThread(b, s.t);
      AdmitSeenLinked(ended.(mem := Observe(ended.mem, th.p, SnapshotInstance(s.snap.value, th.p), s.at)), s.t, th.r,
          th.p, s.snap.value, th.authority, s.at, s.save, id);
    }
  }

  /** A token is there before the step, or the step makes the linked start ready. */
  lemma TokenOrigin(b: Broker, s: Step, c: ActionRequest, id: JobId)
    requires BrokerOnce.Inv(b) && BrokerAuthority.AuthorityInv(b) && Token(Next(b, s), c) && c.parentJobId == Some(id)
    ensures Token(b, c) || (Waiting(b.mem, id) && Shut(Next(b, s), id))
  {
    hide Apply, Enabled, ShapedJournal, BrokerAuthority.AuthorityInv, Shut, Waiting;
    var b' := Next(b, s);
    if t :| t in b'.threads && b'.threads[t].Submitting? && b'.threads[t].r == c {
      ThreadOrigin(b, s, c, id, t);
    } else {
      var i :| 0 <= i < |b'.acts| && b'.acts[i].Submission? && b'.acts[i].request == c;
      ActOrigin(b, s, c, i);
    }
  }

  lemma ThreadOrigin(b: Broker, s: Step, c: ActionRequest, id: JobId, t: nat)
    requires BrokerOnce.Inv(b) && BrokerAuthority.AuthorityInv(b) && c.parentJobId == Some(id)
    requires t in Next(b, s).threads && Next(b, s).threads[t].Submitting? && Next(b, s).threads[t].r == c
    ensures (t in b.threads && b.threads[t].Submitting? && b.threads[t].r == c)
        || (Waiting(b.mem, id) && Shut(Next(b, s), id))
  {
    hide Apply, Enabled, ShapedJournal, BrokerAuthority.AuthorityInv, Shut, Waiting;
    if Enabled(b, s) {
      if Section(s) {
        StepCalls(b, s);
        if t != CallOf(b, s) {
          BrokerOnce.OtherCallsKept(b, Apply(b, s), CallOf(b, s), t);
        } else {
          AdmitServes(b, s);
          AdmitLinked(b, s, id);
        }
      } else {
        RestartEmpties(b, s);
      }
    }
  }

  lemma AdmitServes(b: Broker, s: Step)
    requires Enabled(b, s) && s.StepAdmitExisting?
    ensures s.t in b.threads && b.threads[s.t].ObservingExisting?
        && (s.t in Apply(b, s).threads ==> Apply(b, s).threads[s.t].r == b.threads[s.t].r)
  {
    hide AdmitExisting;
  }

  lemma RestartEmpties(b: Broker, s: Step)
    requires BrokerAuthority.AuthorityInv(b) && Enabled(b, s) && !Section(s)
    ensures Apply(b, s).threads == map[]
  {
    hide Enter, Resume, TailSection, TimeoutSection, AdmitExisting, Submit, Query, BeginFinish, Recheck, Commit,
        SnapshotObserved, SnapshotSaved;
  }

  lemma ActOrigin(b: Broker, s: Step, c: ActionRequest, i: nat)
    requires BrokerOnce.Inv(b) && BrokerAuthority.AuthorityInv(b) && i < |Next(b, s).acts|
        && Next(b, s).acts[i].Submission? && Next(b, s).acts[i].request == c
    ensures Token(b, c)
  {
    hide Apply, Enabled, BrokerOnce.Inv, BrokerAuthority.AuthorityInv;
    ActsGrowByOne(b, s);
    if i < |b.acts| {
      assert b.acts[i] == Next(b, s).acts[i];
    } else {
      SubmitServes(b, s, c);
    }
  }

  lemma SubmitServes(b: Broker, s: Step, c: ActionRequest)
    requires BrokerAuthority.AuthorityInv(b) && Enabled(b, s) && Section(s)
    requires |Apply(b, s).acts| > |b.acts| && Apply(b, s).acts[|b.acts|].Submission?
        && Apply(b, s).acts[|b.acts|].request == c
    ensures Token(b, c)
  {
    hide Enter, Resume, TailSection, TimeoutSection, AdmitExisting, Query, BeginFinish, Recheck, Commit,
        SnapshotObserved, SnapshotSaved, BrokerAuthority.Authorized;
    if !s.StepSubmit? {
      BrokerAuthority.StepAuthorized(b, s);
    }
  }

  /** Step `n` finds restart `id` advanced or finished and opens it again or drops its record. */
  predicate OpensUp(b: Broker, steps: seq<Step>, n: nat, id: JobId)
    requires n < |steps|
  {
    var before := Run(b, steps[..n]);
    Shut(before, id) && (Reopens(before, steps[n], id) || Forgets(before, steps[n], id))
  }

  ghost predicate OpenedUp(b: Broker, steps: seq<Step>, id: JobId) {
    exists n :: 0 <= n < |steps| && OpensUp(b, steps, n, id)
  }

  lemma OpenedEarlier(b: Broker, steps: seq<Step>, id: JobId)
    requires steps != []
    ensures OpenedUp(b, steps[..|steps| - 1], id) ==> OpenedUp(b, steps, id)
    ensures var before, s := Run(b, steps[..|steps| - 1]), steps[|steps| - 1];
            Shut(before, id) && (Reopens(before, s, id) || Forgets(before, s, id)) ==> OpenedUp(b, steps, id)
  {
    hide Reopens, Forgets, Run, Shut;
    var front := steps[..|steps| - 1];
    if n :| 0 <= n < |front| && OpensUp(b, front, n, id) {
      assert front[..n] == steps[..n] && front[n] == steps[n];
      assert OpensUp(b, steps, n, id);
    }
    if Shut(Run(b, front), id) && (Reopens(Run(b, front), steps[|steps| - 1], id)
        || Forgets(Run(b, front), steps[|steps| - 1], id)) {
      assert OpensUp(b, steps, |steps| - 1, id);
    }
  }

  /** A restart with a linked start that is or was ready to be submitted is advanced or finished, until it is opened
      up. */
  lemma {:induction false} TokenShuts(b: Broker, steps: seq<Step>, c: ActionRequest, id: JobId)
    requires BrokerOnce.Inv(b) && BrokerAuthority.AuthorityInv(b) && !Token(b, c) && Token(Run(b, steps), c)
        && c.parentJobId == Some(id)
    ensures Shut(Run(b, steps), id) || OpenedUp(b, steps, id)
    decreases |steps|
  {
    hide BrokerOnce.Inv, BrokerAuthority.AuthorityInv, Shut, Reopens, Forgets, Next, OpenedUp, Run, Token, Waiting;
    RunNone(b);
    var front, s := steps[..|steps| - 1], steps[|steps| - 1];
    var before := Run(b, front);
    RunSnoc(b, steps);
    BrokerOnce.RunKeepsInv(b, front);
    BrokerAuthority.RunKeepsAuthority(b, front);
    TokenOrigin(before, s, c, id);
    if Token(before, c) {
      TokenShuts(b, front, c, id);
      OpenedEarlier(b, steps, id);
      if !OpenedUp(b, steps, id) {
        InvShaped(before);
        ShutStays(before, s, id);
      }
    }
  }

  lemma {:induction false} SecondToken(b: Broker, steps: seq<Step>, c: ActionRequest, d: ActionRequest, id: JobId)
    requires BrokerOnce.Inv(b) && BrokerAuthority.AuthorityInv(b) && !Token(b, c) && !Token(b, d)
    requires Token(Run(b, steps), c) && Token(Run(b, steps), d) && c != d && c.parentJobId == d.parentJobId == Some(id)
    ensures OpenedUp(b, steps, id)
    decreases |steps|
  {
    hide BrokerOnce.Inv, BrokerAuthority.AuthorityInv, Shut, Reopens, Forgets, Next, OpenedUp, Run, Token, Waiting;
    RunNone(b);
    var front, s := steps[..|steps| - 1], steps[|steps| - 1];
    var before := Run(b, front);
    RunSnoc(b, steps);
    BrokerOnce.RunKeepsInv(b, front);
    BrokerAuthority.RunKeepsAuthority(b, front);
    TokenOrigin(before, s, c, id);
    TokenOrigin(before, s, d, id);
    OpenedEarlier(b, steps, id);
    if Token(before, c) && Token(before, d) {
      SecondToken(b, front, c, d, id);
    } else if Token(before, c) || Token(before, d) {
      TokenShuts(b, front, if Token(before, c) then c else d, id);
      ShutNotWaiting(before, id);
    } else {
      OneTokenAStep(before, s, c, d);
    }
  }

  lemma ShutNotWaiting(b: Broker, id: JobId)
    ensures !(Waiting(b.mem, id) && Shut(b, id))
  {
  }

  /** One step makes at most one request ready. */
  lemma OneTokenAStep(b: Broker, s: Step, c: ActionRequest, d: ActionRequest)
    requires BrokerOnce.Inv(b) && BrokerAuthority.AuthorityInv(b) && !Token(b, c) && !Token(b, d)
        && Token(Next(b, s), c) && Token(Next(b, s), d)
    ensures c == d
  {
    hide Apply, Enabled, ShapedJournal, BrokerAuthority.AuthorityInv;
    NewTokenIsOwn(b, s, c);
    NewTokenIsOwn(b, s, d);
  }

  lemma NewTokenIsOwn(b: Broker, s: Step, c: ActionRequest)
    requires BrokerOnce.Inv(b) && BrokerAuthority.AuthorityInv(b) && !Token(b, c) && Token(Next(b, s), c)
    ensures CallOf(b, s) in Next(b, s).threads && Next(b, s).threads[CallOf(b, s)].Submitting?
        && Next(b, s).threads[CallOf(b, s)].r == c
  {
    hide Apply, Enabled, ShapedJournal, BrokerAuthority.AuthorityInv;
    var b' := Next(b, s);
    if i :| 0 <= i < |b'.acts| && b'.acts[i].Submission? && b'.acts[i].request == c {
      ActOrigin(b, s, c, i);
    } else {
      var t :| t in b'.threads && b'.threads[t].Submitting? && b'.threads[t].r == c;
      if Enabled(b, s) {
        if Section(s) {
          StepCalls(b, s);
          if t != CallOf(b, s) {
            BrokerOnce.OtherCallsKept(b, Apply(b, s), CallOf(b, s), t);
          }
        } else {
          RestartEmpties(b, s);
        }
      }
    }
  }

  /** Over every run, whatever ids and policies it uses: if two different linked starts of one restart are submitted
      to the second coordinator, then before that the restart was advanced and a call of the direct path took it
      back, or its finished record was dropped when a day old. */
  lemma SecondSubmissionNeedsTail(policy: Policy, now: Time, steps: seq<Step>, id: JobId, i: nat, j: nat)
    requires i < j < |Run(Initial(policy, now), steps).acts|
    requires var acts := Run(Initial(policy, now), steps).acts;
             && acts[i].Submission? && acts[i].request.parentJobId == Some(id)
             && acts[j].Submission? && acts[j].request.parentJobId == Some(id)
    ensures OpenedUp(Initial(policy, now), steps, id)
  {
    hide BrokerOnce.Inv, BrokerAuthority.AuthorityInv, OpenedUp, Run;
    var b := Initial(policy, now);
    var acts := Run(b, steps).acts;
    BrokerAuthority.InitiallyAuthorized(policy, now);
    BrokerOnce.AtMostOnce(policy, now, steps);
    SecondToken(b, steps, acts[i].request, acts[j].request, id);
  }

  // ---------------------------------------------------------------- finished records over runs

  predicate Holds(b: Broker, id: JobId, mark: Attempt) {
    id in b.mem.attempts && b.mem.attempts[id] == mark && id in b.disk.attempts && b.disk.attempts[id] == mark
  }

  lemma DoneStays(b: Broker, s: Step, id: JobId, mark: Attempt)
    requires ShapedJournal(b.mem) && mark.stage == Done && Holds(b, id, mark) && !OwnEnding(b, s, id)
        && !Forgets(b, s, id)
    ensures Holds(Next(b, s), id, mark)
  {
    hide Apply, Enabled, ShapedJournal;
    if Enabled(b, s) {
      if Section(s) {
        StepTidy(b, s, id);
      } else {
        RestartTakesFile(b, s);
      }
    }
  }

  lemma RestartTakesFile(b: Broker, s: Step)
    requires Enabled(b, s) && !Section(s)
    ensures Apply(b, s).mem.attempts == b.disk.attempts && Apply(b, s).disk.attempts == b.disk.attempts
  {
    hide Enter, Resume, TailSection, TimeoutSection, AdmitExisting, Submit, Query, BeginFinish, Recheck, Commit,
        SnapshotObserved, SnapshotSaved;
  }

  /** Step `n` ends a call of the direct path that owns record `id`, or drops the record. */
  predicate Touches(b: Broker, steps: seq<Step>, n: nat, id: JobId)
    requires n < |steps|
  {
    OwnEnding(Run(b, steps[..n]), steps[n], id) || Forgets(Run(b, steps[..n]), steps[n], id)
  }

  /** Over every run: a record that is done in memory and in the file stays exactly as it is, through crashes and
      failed writes, until a call of the direct path that owns it ends, or it is dropped when a day old. */
  lemma {:induction false} FinishedStays(b: Broker, steps: seq<Step>, id: JobId, mark: Attempt)
    requires BrokerOnce.Inv(b) && mark.stage == Done && Holds(b, id, mark)
    requires forall n :: 0 <= n < |steps| ==> !Touches(b, steps, n, id)
    ensures Holds(Run(b, steps), id, mark)
    decreases |steps|
  {
    hide BrokerOnce.Inv, Holds, OwnEnding, Forgets, Next, Run;
    RunNone(b);
    if steps != [] {
      var front, s := steps[..|steps| - 1], steps[|steps| - 1];
      forall n | 0 <= n < |front|
        ensures !Touches(b, front, n, id)
      {
        assert front[..n] == steps[..n] && front[n] == steps[n];
        assert !Touches(b, steps, n, id);
      }
      FinishedStays(b, front, id, mark);
      BrokerOnce.RunKeepsInv(b, front);
      RunSnoc(b, steps);
      assert !Touches(b, steps, |steps| - 1, id);
      InvShaped(Run(b, front));
      DoneStays(Run(b, front), s, id, mark);
    }
  }
}
