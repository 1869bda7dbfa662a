/**
  The existing-coordinator path over whole runs, crashes included: at most one
  linked start is ever submitted per restart, a durable finished record never
  changes, the snapshots a record accepts never contradict each other, and a
  stop is reported only with agreeing shutdown witnesses.
*/
module BrokerExisting {
  import opened SparkTypes
  import opened BrokerRules
  import opened ExistingRules
  import opened Broker
  import opened BrokerJournal
  import opened BrokerSections
  import opened BrokerRecords
  import BrokerOnce
  import BrokerAuthority

  // ---------------------------------------------------------------- a request that lives on this path

  predicate OnExisting(policy: Policy, r: ActionRequest) {
    var p := FindProfile(policy.profiles, r.params.profileId);
    p.None? || p.value.kind == ExistingCoordinator
  }

  /** The job id of `r` stands for `r` alone, and its profile stays with the existing coordinator. */
  predicate Dedicated(s: Step, r: ActionRequest) {
    && (s.StepEnter? && s.r.jobId == r.jobId ==> s.r == r)
    && (s.StepOpen? ==> OnExisting(s.policy, r))
  }

  predicate DedicatedCall(th: Thread, r: ActionRequest) {
    th.Snapshotting? || th.r.jobId != r.jobId || (th.r == r && !th.InPreflight? && !th.InTail?)
  }

  ghost predicate DedicatedCalls(b: Broker, r: ActionRequest) {
    forall t :: t in b.threads ==> DedicatedCall(b.threads[t], r)
  }

  predicate DedicatedRecord(j: Journal, r: ActionRequest) {
    r.jobId in j.attempts ==> j.attempts[r.jobId].digest.None? || j.attempts[r.jobId].digest == Some(r)
  }

  ghost predicate DedicatedState(b: Broker, r: ActionRequest) {
    OnExisting(b.policy, r) && DedicatedCalls(b, r) && DedicatedRecord(b.mem, r) && DedicatedRecord(b.disk, r)
  }

  lemma OwnCallDedicated(b: Broker, s: Step, r: ActionRequest)
    requires Enabled(b, s) && Section(s) && Dedicated(s, r) && OnExisting(b.policy, r) && DedicatedCalls(b, r)
        && ShapedJournal(b.mem) && CallsSane(b)
    ensures var b' := Apply(b, s); CallOf(b, s) in b'.threads ==> DedicatedCall(b'.threads[CallOf(b, s)], r)
  {
    hide Apply, Enabled, ShapedJournal, CallsSane;
    OwnCall(b, s);
    assert CallOf(b, s) in b.threads ==> DedicatedCall(b.threads[CallOf(b, s)], r);
    if s.StepResume? {
      ResumedWasInPreflight(b, s);
    }
    if !s.StepEnter? {
      OthersHaveACall(b, s);
    }
  }

  lemma ResumedWasInPreflight(b: Broker, s: Step)
    requires Enabled(b, s) && s.StepResume?
    ensures s.t in b.threads && b.threads[s.t].InPreflight?
  {
  }

  /** A step other than an entry either continues a call that serves a request or begins none. */
  lemma OthersHaveACall(b: Broker, s: Step)
    requires Enabled(b, s) && Section(s) && !s.StepEnter? && CallsSane(b)
    ensures var t := CallOf(b, s);
            (t in b.threads && !b.threads[t].Snapshotting?) || t !in Apply(b, s).threads
                || Apply(b, s).threads[t].Snapshotting?
  {
    hide Enter, Resume, TailSection, TimeoutSection, AdmitExisting, Submit, Query, BeginFinish, Recheck, Commit,
        SnapshotSaved, Crashed, Opened;
    if CallOf(b, s) !in b.threads && !s.StepSnapshotBegin? {
      assert Apply(b, s).threads == b.threads;
    }
  }

  lemma SectionCallsDedicated(b: Broker, s: Step, r: ActionRequest)
    requires BrokerOnce.Inv(b) && Enabled(b, s) && Section(s) && Dedicated(s, r) && DedicatedState(b, r)
    ensures DedicatedCalls(Apply(b, s), r) && OnExisting(Apply(b, s).policy, r)
  {
    hide Apply, Enabled, ShapedJournal, OnExisting, Dedicated, DedicatedRecord, DedicatedCall;
    var b' := Apply(b, s);
    StepCalls(b, s);
    OwnCallDedicated(b, s, r);
    forall t | t in b'.threads && t != CallOf(b, s)
      ensures DedicatedCall(b'.threads[t], r)
    {
      BrokerOnce.OtherCallsKept(b, b', CallOf(b, s), t);
    }
  }

  /** The step serves a request other than those sharing `r`'s id, or `r` itself on this path. */
  lemma ServesDedicated(b: Broker, s: Step, r: ActionRequest)
    requires Enabled(b, s) && Section(s) && Dedicated(s, r) && DedicatedCalls(b, r) && r.jobId != ""
    ensures RequestOf(b, s).jobId == r.jobId ==> RequestOf(b, s) == r
    ensures !OwnEnding(b, s, r.jobId)
  {
    if CallOf(b, s) in b.threads {
      assert DedicatedCall(b.threads[CallOf(b, s)], r);
    }
  }

  lemma SectionKeepsDedicated(b: Broker, s: Step, r: ActionRequest)
    requires BrokerOnce.Inv(b) && Enabled(b, s) && Section(s) && Dedicated(s, r) && DedicatedState(b, r)
        && r.jobId != ""
    ensures DedicatedState(Apply(b, s), r)
  {
    hide Apply, Enabled, ShapedJournal, OnExisting, Dedicated, DedicatedCalls, ChainOk, OwnEnding;
    SectionCallsDedicated(b, s, r);
    ServesDedicated(b, s, r);
    StepSources(b, s, r.jobId);
  }

  // ---------------------------------------------------------------- a final record is held for good

  predicate Recorded(j: Journal, r: ActionRequest) {
    r.jobId in j.attempts && j.attempts[r.jobId].digest == Some(r)
  }

  /** The record of `r` is final, and is `mark` if one is given; or there is none any more and the lease of `r` is
      over. */
  predicate Held(j: Journal, r: ActionRequest, mark: Option<Attempt>, now: Time) {
    if Recorded(j, r) then Final(j.attempts[r.jobId]) && (mark.Some? ==> j.attempts[r.jobId] == mark.value)
    else r.deadline <= now
  }

  lemma HeldMoves(j: Journal, j': Journal, r: ActionRequest, mark: Option<Attempt>, q: ActionRequest, now: Time)
    requires ShapedJournal(j) && Moves(j, j', r.jobId, q, now) && Held(j, r, mark, now)
        && (mark.Some? ==> mark.value.stage == Done)
    requires !Recorded(j, r) ==> !Recorded(j', r)
    ensures Held(j', r, mark, now)
  {
    hide ChainOk;
    if Recorded(j, r) {
      assert Shaped(r.jobId, j.attempts[r.jobId]);
    }
  }

  /** A commit gives no record a new digest. */
  lemma CommitDigest(b: Broker, t: nat, th: Thread, x: CommitInputs, r: ActionRequest)
    requires ShapedJournal(b.mem) && th.Committing? && !Recorded(b.mem, r)
    ensures var b' := Commit(b, t, th, x).b; !Recorded(b'.mem, r) && (b'.disk == b.disk || !Recorded(b'.disk, r))
  {
    hide Settled, CommitRecorded, ObservedProfile;
    var a := AttemptOf(b.mem, th.r.jobId);
    if !CommitBlocked(b, th.r, th.p, th.backend, th.authority, x.bootId) {
      var current := UsableSnapshot(b, a, th.p, th.current);
      var ended := EndThread(b, t);
      var seen := if current.Some? then ended.(mem := Observe(ended.mem, th.p, JudgedInstance(a, th.p, current), x.now))
          else ended;
      SettledSame(seen, th.r, th.p, th.backend, a, current, x);
      CommitRecordedDigest(seen, th.r, th.p, th.backend, Settled(seen, th.r, th.p, th.backend, a, current, x), r);
    }
  }

  lemma CommitRecordedDigest(b: Broker, q: ActionRequest, p: Profile, backend: BackendReceipt, settled: Attempt,
                             r: ActionRequest)
    requires ShapedJournal(b.mem) && SameRecord(AttemptOf(b.mem, q.jobId), settled) && !Recorded(b.mem, r)
    ensures var o := CommitRecorded(b, q, p, backend, settled); !Recorded(o.mem, r) && o.disk == b.disk
  {
    hide FinishParent, CloseStarts;
    assert q.jobId in b.mem.attempts ==> Shaped(q.jobId, AttemptOf(b.mem, q.jobId));
    PutBack(b, q.jobId, settled, settled.at);
    var stored := Put(b, q.jobId, settled).mem;
    var swept := CloseStarts(stored, settled.receipt, p, backend);
    CloseStartsRewrites(stored, settled.receipt, p, backend);
    RewritesKeep(stored, swept, settled.at);
    FinishParentRewrites(swept, settled);
  }

  lemma AdmitDigest(b: Broker, t: nat, th: Thread, snap: Option<Snapshot>, now: Time, w: Write, r: ActionRequest)
    requires th.ObservingExisting? && !Recorded(b.mem, r) && r.deadline <= now
    ensures var b' := AdmitExisting(b, t, th, snap, now, w).b;
            !Recorded(b'.mem, r) && (b'.disk == b.disk || !Recorded(b'.disk, r))
  {
    hide ObservedProfile, AdmitSeen, ChainOk, SnapshotInstance;
    if th.r != r {
      AdmitExistingTidy(b, t, th, snap, now, w, r.jobId, now);
    } else if snap.Some? {
      var ended := EndThread(b, t);
      ExpiredRefused(ended.(mem := Observe(ended.mem, th.p, SnapshotInstance(snap.value, th.p), now)), t, r, th.p,
          snap.value, th.authority, now, w);
    }
  }

  lemma ExpiredRefused(b: Broker, t: nat, r: ActionRequest, p: Profile, snap: Snapshot, authority: Authority, now: Time,
                       w: Write)
    requires r.deadline <= now
    ensures AdmitSeen(b, t, r, p, snap, authority, now, w).b == b
  {
    hide ExistingJournal, BackendRequestFor, SnapshotInstance;
  }

  lemma EnterDigest(b: Broker, r: ActionRequest, bootId: string, e: EnterInputs)
    requires OnExisting(b.policy, r)
    ensures var b' := Enter(b, r, bootId, e).b; b'.mem == b.mem && b'.disk == b.disk
  {
    hide EnterDirect, EnterExisting;
  }

  /** An expired request of this path is never recorded again. */
  lemma NotReadmitted(b: Broker, s: Step, r: ActionRequest)
    requires ShapedJournal(b.mem) && Enabled(b, s) && Section(s) && Dedicated(s, r) && DedicatedState(b, r)
        && r.jobId != ""
    requires !Recorded(b.mem, r) && r.deadline <= b.now
    ensures var b' := Apply(b, s); !Recorded(b'.mem, r) && (b'.disk == b.disk || !Recorded(b'.disk, r))
  {
    hide Enter, AdmitExisting, Commit, Resume, TailSection, TimeoutSection, ShapedJournal, Sources, OnExisting,
        Dedicated, DedicatedRecord, OwnEnding;
    ServesDedicated(b, s, r);
    if RequestOf(b, s).jobId != r.jobId {
      StepSources(b, s, r.jobId);
      OthersNotRecorded(b, Apply(b, s), r, RequestOf(b, s));
    } else {
      assert CallOf(b, s) in b.threads ==> DedicatedCall(b.threads[CallOf(b, s)], r);
      match s
      case StepEnter(q, bootId, e) => EnterDigest(b, r, bootId, e);
      case StepAdmitExisting(t, snap, at, w) => AdmitDigest(b, t, b.threads[t], snap, at, w, r);
      case StepCommit(t, x) => CommitDigest(b, t, b.threads[t], x, r);
      case _ =>
    }
  }

  lemma OthersNotRecorded(b: Broker, b': Broker, r: ActionRequest, q: ActionRequest)
    requires q.jobId != r.jobId && !Recorded(b.mem, r)
    requires Sources(b.mem, b'.mem, r.jobId, q) && (b'.disk == b.disk || Sources(b.mem, b'.disk, r.jobId, q))
    ensures !Recorded(b'.mem, r) && (b'.disk == b.disk || !Recorded(b'.disk, r))
  {
    hide ChainOk;
  }

  lemma SectionKeepsHeld(b: Broker, s: Step, r: ActionRequest, mark: Option<Attempt>)
    requires BrokerOnce.Inv(b) && Enabled(b, s) && Section(s) && Dedicated(s, r) && DedicatedState(b, r)
        && r.jobId != ""
    requires Held(b.mem, r, mark, b.now) && (mark.Some? ==> mark.value.stage == Done)
    ensures var b' := Apply(b, s);
            Held(b'.mem, r, mark, b'.now) && (Held(b.disk, r, mark, b.now) ==> Held(b'.disk, r, mark, b'.now))
  {
    hide Apply, Enabled, ShapedJournal, Moves, Dedicated, DedicatedState, OwnEnding, Recorded, Final;
    var b' := Apply(b, s);
    StepCalls(b, s);
    assert DedicatedCalls(b, r) by { Unfold(b, r); }
    ServesDedicated(b, s, r);
    StepTidy(b, s, r.jobId);
    if !Recorded(b.mem, r) {
      NotReadmitted(b, s, r);
    }
    HeldMoves(b.mem, b'.mem, r, mark, RequestOf(b, s), b'.now);
    if b'.disk != b.disk {
      HeldMoves(b.mem, b'.disk, r, mark, RequestOf(b, s), b'.now);
    }
  }

  lemma Unfold(b: Broker, r: ActionRequest)
    requires DedicatedState(b, r)
    ensures DedicatedCalls(b, r)
  {
  }

  /** A crash or an opening takes the records over from the file. */
  lemma RestartJournals(b: Broker, s: Step)
    requires Enabled(b, s) && !Section(s)
    ensures var b' := Apply(b, s);
            && b'.mem.attempts == b.disk.attempts && b'.disk.attempts == b.disk.attempts && b'.now == b.now
                && b'.acts == b.acts
            && (b'.threads == b.threads || b'.threads == map[]) && b'.policy == if s.StepOpen? then s.policy
                else b.policy
  {
    hide Enter, Resume, TailSection, TimeoutSection, AdmitExisting, Submit, Query, BeginFinish, Recheck, Commit,
        SnapshotObserved, SnapshotSaved;
  }

  lemma RestartKeepsDedicated(b: Broker, s: Step, r: ActionRequest)
    requires Enabled(b, s) && !Section(s) && Dedicated(s, r) && DedicatedState(b, r)
    ensures DedicatedState(Apply(b, s), r)
  {
    hide Apply, Enabled, OnExisting;
    RestartJournals(b, s);
  }

  lemma RestartKeepsHeld(b: Broker, s: Step, r: ActionRequest, mark: Option<Attempt>)
    requires Enabled(b, s) && !Section(s) && Held(b.disk, r, mark, b.now)
    ensures var b' := Apply(b, s); Held(b'.mem, r, mark, b'.now) && Held(b'.disk, r, mark, b'.now)
  {
    hide Apply, Enabled, Final;
    RestartJournals(b, s);
  }

  lemma NextKeepsDedicated(b: Broker, s: Step, r: ActionRequest)
    requires BrokerOnce.Inv(b) && Dedicated(s, r) && DedicatedState(b, r) && r.jobId != ""
    ensures DedicatedState(Next(b, s), r)
  {
    hide BrokerOnce.Inv, DedicatedState, Dedicated, Apply, Enabled;
    if Enabled(b, s) {
      if Section(s) {
        SectionKeepsDedicated(b, s, r);
      } else {
        RestartKeepsDedicated(b, s, r);
      }
    }
  }

  ghost predicate AllDedicated(steps: seq<Step>, r: ActionRequest) {
    forall k :: 0 <= k < |steps| ==> Dedicated(steps[k], r)
  }

  lemma {:induction false} RunKeepsDedicated(b: Broker, steps: seq<Step>, r: ActionRequest)
    requires BrokerOnce.Inv(b) && AllDedicated(steps, r) && DedicatedState(b, r) && r.jobId != ""
    ensures DedicatedState(Run(b, steps), r)
    decreases |steps|
  {
    hide BrokerOnce.Inv, DedicatedState, Dedicated, Next;
    if steps != [] {
      RunKeepsDedicated(b, steps[..|steps| - 1], r);
      BrokerOnce.RunKeepsInv(b, steps[..|steps| - 1]);
      NextKeepsDedicated(Run(b, steps[..|steps| - 1]), steps[|steps| - 1], r);
    }
  }

  /** Without a crash, a record that is done in memory stays as it is, durable or not. */
  lemma {:induction false} DoneUntilCrash(b: Broker, steps: seq<Step>, r: ActionRequest, mark: Attempt)
    requires BrokerOnce.Inv(b) && AllDedicated(steps, r) && DedicatedState(b, r) && r.jobId != ""
    requires forall k :: 0 <= k < |steps| ==> !steps[k].StepCrash?
    requires mark.stage == Done && Recorded(b.mem, r) && b.mem.attempts[r.jobId] == mark
    ensures var b' := Run(b, steps); Held(b'.mem, r, Some(mark), b'.now) && DedicatedState(b', r)
    decreases |steps|
  {
    hide DedicatedState, Dedicated, Apply, Enabled, Held, ShapedJournal;
    if steps == [] {
      assert Held(b.mem, r, Some(mark), b.now) by { HeldNow(b, r, mark); }
    } else {
      var prefix, s := steps[..|steps| - 1], steps[|steps| - 1];
      var last := Run(b, prefix);
      DoneUntilCrash(b, prefix, r, mark);
      BrokerOnce.RunKeepsInv(b, prefix);
      NextKeepsDedicated(last, s, r);
      if Enabled(last, s) {
        if Section(s) {
          SectionKeepsHeld(last, s, r, Some(mark));
        } else {
          IdleJournals(last, s);
          RestartKeepsHeld(last, s, r, Some(mark));
        }
      }
    }
  }

  lemma IdleJournals(b: Broker, s: Step)
    requires BrokerOnce.Inv(b) && Enabled(b, s) && !Section(s) && !s.StepCrash?
    ensures b.mem == b.disk
  {
  }

  lemma HeldNow(b: Broker, r: ActionRequest, mark: Attempt)
    requires mark.stage == Done && Recorded(b.mem, r) && b.mem.attempts[r.jobId] == mark
    ensures Held(b.mem, r, Some(mark), b.now)
  {
  }

  lemma NextKeepsHeld(b: Broker, s: Step, r: ActionRequest, mark: Option<Attempt>)
    requires BrokerOnce.Inv(b) && Dedicated(s, r) && DedicatedState(b, r) && r.jobId != ""
        && (mark.Some? ==> mark.value.stage == Done)
    requires Held(b.mem, r, mark, b.now) && Held(b.disk, r, mark, b.now)
    ensures var b' := Next(b, s); Held(b'.mem, r, mark, b'.now) && Held(b'.disk, r, mark, b'.now)
  {
    hide DedicatedState, Dedicated, Apply, Enabled, Held, ShapedJournal;
    if Enabled(b, s) {
      if Section(s) {
        SectionKeepsHeld(b, s, r, mark);
      } else {
        RestartKeepsHeld(b, s, r, mark);
      }
    }
  }

  lemma {:induction false} RunKeepsHeld(b: Broker, steps: seq<Step>, r: ActionRequest, mark: Option<Attempt>)
    requires BrokerOnce.Inv(b) && AllDedicated(steps, r) && DedicatedState(b, r) && r.jobId != ""
        && (mark.Some? ==> mark.value.stage == Done)
    requires Held(b.mem, r, mark, b.now) && Held(b.disk, r, mark, b.now)
    ensures var b' := Run(b, steps); Held(b'.mem, r, mark, b'.now) && Held(b'.disk, r, mark, b'.now)
    decreases |steps|
  {
    hide BrokerOnce.Inv, DedicatedState, Dedicated, Next, Held;
    if steps != [] {
      var prefix := steps[..|steps| - 1];
      RunKeepsHeld(b, prefix, r, mark);
      RunKeepsDedicated(b, prefix, r);
      BrokerOnce.RunKeepsInv(b, prefix);
      NextKeepsHeld(Run(b, prefix), steps[|steps| - 1], r, mark);
    }
  }

  lemma InitiallyDedicated(policy: Policy, now: Time, r: ActionRequest)
    requires OnExisting(policy, r)
    ensures BrokerOnce.Inv(Initial(policy, now)) && DedicatedState(Initial(policy, now), r)
  {
  }

  /** Once the record of a request is done in memory and in the file, no run, crashes included, ever shows another
      record of that request. */
  lemma DurableDoneForever(policy: Policy, now: Time, before: seq<Step>, after: seq<Step>, r: ActionRequest)
    requires OnExisting(policy, r) && r.jobId != "" && AllDedicated(before, r) && AllDedicated(after, r)
    requires var b := Run(Initial(policy, now), before);
             Recorded(b.mem, r) && Recorded(b.disk, r) && b.mem.attempts[r.jobId].stage == Done
                 && b.disk.attempts[r.jobId] == b.mem.attempts[r.jobId]
    ensures var b := Run(Initial(policy, now), before); var b' := Run(b, after);
            && (Recorded(b'.mem, r) ==> b'.mem.attempts[r.jobId] == b.mem.attempts[r.jobId])
            && (Recorded(b'.disk, r) ==> b'.disk.attempts[r.jobId] == b.mem.attempts[r.jobId])
  {
    hide BrokerOnce.Inv, DedicatedState, Dedicated, Initial, Run;
    var b := Run(Initial(policy, now), before);
    InitiallyDedicated(policy, now, r);
    RunKeepsDedicated(Initial(policy, now), before, r);
    BrokerOnce.RunKeepsInv(Initial(policy, now), before);
    RunKeepsHeld(b, after, r, Some(b.mem.attempts[r.jobId]));
  }

  // ---------------------------------------------------------------- one linked start per restart

  predicate LinkedTo(c: ActionRequest, r: ActionRequest) {
    c.parentJobId == Some(r.jobId)
  }

  /** Every linked start that was or is about to be submitted for restart `r` is the one in `only`, and once there is
      one the restart's record is final. */
  ghost predicate Links(b: Broker, r: ActionRequest, only: Option<ActionRequest>) {
    && (forall i :: 0 <= i < |b.acts| && b.acts[i].Submission? && LinkedTo(b.acts[i].request, r) ==>
        only == Some(b.acts[i].request))
    && (forall t :: t in b.threads && b.threads[t].Submitting? && LinkedTo(b.threads[t].r, r) ==>
        only == Some(b.threads[t].r))
    && (only.Some? ==> Held(b.mem, r, None, b.now) && Held(b.disk, r, None, b.now))
  }

  /** Admitting a linked start takes a stopped restart and publishes it as advanced. */
  lemma LinkAdmission(b: Broker, t: nat, th: Thread, snap: Option<Snapshot>, now: Time, w: Write)
    requires th.ObservingExisting? && th.r.parentJobId.Some?
    ensures var b' := AdmitExisting(b, t, th, snap, now, w).b; var id := th.r.parentJobId.value;
            t in b'.threads ==>
              && id in b.mem.attempts && b.mem.attempts[id].stage == RestartStopped
                  && b.mem.attempts[id].request.action == Restart
              && id in b'.mem.attempts && b'.mem.attempts[id].stage == StartAttempted
                  && b'.mem.attempts[id].digest == b.mem.attempts[id].digest
              && b'.disk == b'.mem
  {
    hide ObservedProfile, SnapshotInstance, AdmitSeen;
    if snap.Some? && th.r.jobId !in b.mem.attempts {
      var ended := EndThread(b, t);
      LinkAdmissionSeen(ended.(mem := Observe(ended.mem, th.p, SnapshotInstance(snap.value, th.p), now)), t, th.r, th.p,
          snap.value, th.authority, now, w);
    }
  }

  lemma LinkAdmissionSeen(b: Broker, t: nat, r: ActionRequest, p: Profile, snap: Snapshot, authority: Authority,
                          now: Time, w: Write)
    requires t !in b.threads && r.parentJobId.Some? && r.jobId !in b.mem.attempts
    ensures var b' := AdmitSeen(b, t, r, p, snap, authority, now, w).b; var id := r.parentJobId.value;
            t in b'.threads ==>
              && id in b.mem.attempts && b.mem.attempts[id].stage == RestartStopped
                  && b.mem.attempts[id].request.action == Restart
              && id in b'.mem.attempts && b'.mem.attempts[id].stage == StartAttempted
                  && b'.mem.attempts[id].digest == b.mem.attempts[id].digest
              && b'.disk == b'.mem
  {
    hide SnapshotInstance, EvidenceReceipt, BackendRequestFor;
  }

  lemma AdmissionKeepsLinks(b: Broker, s: Step, r: ActionRequest, only: Option<ActionRequest>)
      returns (only': Option<ActionRequest>)
    requires BrokerOnce.Inv(b) && Enabled(b, s) && s.StepAdmitExisting? && Dedicated(s, r) && DedicatedState(b, r)
        && Links(b, r, only) && r.jobId != ""
    ensures Links(Apply(b, s), r, only')
  {
    hide ShapedJournal, AdmitExisting, OnExisting, Dedicated, DedicatedCalls;
    var b' := Apply(b, s);
    var th := b.threads[s.t];
    StepCalls(b, s);
    if only.Some? {
      SectionKeepsHeld(b, s, r, None);
    }
    only' := only;
    if s.t in b'.threads && LinkedTo(th.r, r) {
      LinkAdmission(b, s.t, th, s.snap, s.at, s.save);
      assert Shaped(r.jobId, b.mem.attempts[r.jobId]) by { ShapedAt(b.mem, r.jobId); }
      assert only.None?;
      only' := Some(th.r);
    }
    forall t | t in b'.threads && b'.threads[t].Submitting? && LinkedTo(b'.threads[t].r, r)
      ensures only' == Some(b'.threads[t].r)
    {
      if t != s.t {
        BrokerOnce.OtherCallsKept(b, b', s.t, t);
      } else {
      }
    }
  }

  lemma ShapedAt(j: Journal, k: JobId)
    requires ShapedJournal(j) && k in j.attempts
    ensures Shaped(k, j.attempts[k])
  {
  }

  /** The acts after a section: the former ones, and the submission of the call that submits or a supervisor call. */
  lemma SectionActs(b: Broker, s: Step)
    requires BrokerAuthority.AuthorityInv(b) && Enabled(b, s) && Section(s)
    ensures var b' := Apply(b, s);
            && |b.acts| <= |b'.acts| <= |b.acts| + 1 && b'.acts[..|b.acts|] == b.acts
            && (|b'.acts| > |b.acts| && b'.acts[|b.acts|].Submission? ==>
                  s.StepSubmit? && s.t in b.threads && b.threads[s.t].Submitting?
                  && b'.acts[|b.acts|].request == b.threads[s.t].r)
  {
    hide Enter, Resume, TailSection, TimeoutSection, Commit, Query, BeginFinish, Recheck, SnapshotObserved,
        SnapshotSaved, Crashed, Opened, AdmitExisting, BrokerAuthority.Authorized;
    if !s.StepSubmit? {
      BrokerAuthority.StepAuthorized(b, s);
    }
  }

  lemma SectionKeepsLinks(b: Broker, s: Step, r: ActionRequest, only: Option<ActionRequest>)
    requires BrokerOnce.Inv(b) && BrokerAuthority.AuthorityInv(b) && Enabled(b, s) && Section(s)
        && !s.StepAdmitExisting?
    requires Dedicated(s, r) && DedicatedState(b, r) && Links(b, r, only) && r.jobId != ""
    ensures Links(Apply(b, s), r, only)
  {
    hide Apply, Enabled, ShapedJournal, Dedicated, DedicatedState, Held, BrokerAuthority.AuthorityInv;
    var b' := Apply(b, s);
    StepCalls(b, s);
    SectionActs(b, s);
    if only.Some? {
      SectionKeepsHeld(b, s, r, None);
    }
    forall t | t in b'.threads && b'.threads[t].Submitting? && LinkedTo(b'.threads[t].r, r)
      ensures only == Some(b'.threads[t].r)
    {
      if t != CallOf(b, s) {
        BrokerOnce.OtherCallsKept(b, b', CallOf(b, s), t);
      }
    }
    assert forall i :: 0 <= i < |b.acts| ==> b'.acts[i] == b'.acts[..|b.acts|][i];
  }

  lemma NextKeepsLinks(b: Broker, s: Step, r: ActionRequest, only: Option<ActionRequest>)
      returns (only': Option<ActionRequest>)
    requires BrokerOnce.Inv(b) && BrokerAuthority.AuthorityInv(b) && Dedicated(s, r) && DedicatedState(b, r)
        && Links(b, r, only) && r.jobId != ""
    ensures Links(Next(b, s), r, only')
  {
    hide BrokerAuthority.AuthorityInv, Enabled, AdmitExisting, Enter, Resume, Commit, DedicatedState, Held,
        ShapedJournal;
    only' := only;
    if Enabled(b, s) {
      if s.StepAdmitExisting? {
        only' := AdmissionKeepsLinks(b, s, r, only);
      } else if Section(s) {
        SectionKeepsLinks(b, s, r, only);
      } else {
        RestartJournals(b, s);
        if only.Some? {
          RestartKeepsHeld(b, s, r, None);
        }
      }
    }
  }

  lemma {:induction false} RunKeepsLinks(b: Broker, steps: seq<Step>, r: ActionRequest)
      returns (only: Option<ActionRequest>)
    requires BrokerOnce.Inv(b) && BrokerAuthority.AuthorityInv(b) && AllDedicated(steps, r) && DedicatedState(b, r)
        && Links(b, r, None) && r.jobId != ""
    ensures Links(Run(b, steps), r, only)
    decreases |steps|
  {
    hide BrokerOnce.Inv, BrokerAuthority.AuthorityInv, DedicatedState, Dedicated, Next, Links;
    only := None;
    if steps != [] {
      var prefix := steps[..|steps| - 1];
      only := RunKeepsLinks(b, prefix, r);
      RunKeepsDedicated(b, prefix, r);
      BrokerOnce.RunKeepsInv(b, prefix);
      BrokerAuthority.RunKeepsAuthority(b, prefix);
      only := NextKeepsLinks(Run(b, prefix), steps[|steps| - 1], r, only);
    }
  }

  /** Over every run, crashes and failed writes included, at most one linked start is submitted for a restart. */
  lemma LinkedStartSubmittedOnce(policy: Policy, now: Time, steps: seq<Step>, r: ActionRequest, i: nat, j: nat)
    requires OnExisting(policy, r) && r.jobId != "" && AllDedicated(steps, r)
    requires var acts := Run(Initial(policy, now), steps).acts;
             && i < |acts| && acts[i].Submission? && LinkedTo(acts[i].request, r)
             && j < |acts| && acts[j].Submission? && LinkedTo(acts[j].request, r)
    ensures i == j
  {
    hide BrokerOnce.Inv, DedicatedState, Dedicated, Run, Held;
    var b := Initial(policy, now);
    InitiallyDedicated(policy, now, r);
    BrokerAuthority.InitiallyAuthorized(policy, now);
    assert Links(b, r, None);
    var only := RunKeepsLinks(b, steps, r);
    BrokerOnce.AtMostOnce(policy, now, steps);
  }
}
