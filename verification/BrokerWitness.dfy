/**
  What the existing coordinator must show before a stop is reported: receipt and
  fresh snapshot carry shutdown witnesses that agree on run, attempt, generation
  and identity; and the snapshots one record accepts never contradict each other.
*/
module BrokerWitness {
  import opened SparkTypes
  import opened BrokerRules
  import opened ExistingRules
  import opened Broker
  import opened BrokerJournal
  import opened BrokerSections
  import opened BrokerRecords
  import BrokerOnce

  // ---------------------------------------------------------------- chains of accepted snapshots

  ghost predicate AllChained(j: Journal) {
    forall k :: k in j.attempts ==> Chained(j.attempts[k])
  }

  lemma SectionKeepsChains(b: Broker, s: Step)
    requires ShapedJournal(b.mem) && Enabled(b, s) && Section(s) && AllChained(b.mem) && AllChained(b.disk)
    ensures AllChained(Apply(b, s).mem) && AllChained(Apply(b, s).disk)
  {
    hide Apply, Enabled, ShapedJournal, Chained;
    forall k
      ensures k in Apply(b, s).mem.attempts ==> Chained(Apply(b, s).mem.attempts[k])
      ensures k in Apply(b, s).disk.attempts ==> Chained(Apply(b, s).disk.attempts[k])
    {
      StepSources(b, s, k);
    }
  }

  lemma RestartKeepsChains(b: Broker, s: Step)
    requires Enabled(b, s) && !Section(s) && AllChained(b.mem) && AllChained(b.disk)
    ensures AllChained(Apply(b, s).mem) && AllChained(Apply(b, s).disk)
  {
    hide Chained, Enter, Resume, TailSection, TimeoutSection, AdmitExisting, Submit, Query, BeginFinish, Recheck,
        Commit, SnapshotObserved, SnapshotSaved;
  }

  lemma {:induction false} RunKeepsChains(b: Broker, steps: seq<Step>)
    requires BrokerOnce.Inv(b) && AllChained(b.mem) && AllChained(b.disk)
    ensures AllChained(Run(b, steps).mem) && AllChained(Run(b, steps).disk)
    decreases |steps|
  {
    hide Apply, Enabled, AllChained, ShapedJournal;
    if steps != [] {
      var last, s := Run(b, steps[..|steps| - 1]), steps[|steps| - 1];
      RunKeepsChains(b, steps[..|steps| - 1]);
      BrokerOnce.RunKeepsInv(b, steps[..|steps| - 1]);
      if Enabled(last, s) {
        if Section(s) {
          SectionKeepsChains(last, s);
        } else {
          RestartKeepsChains(last, s);
        }
      }
    }
  }

  /** Over every run, any two snapshots accepted for one record show the same run, and every physical field the
      earlier one knew has the same value in the later one. */
  lemma AcceptedSnapshotsAgree(policy: Policy, now: Time, steps: seq<Step>, id: JobId, i: nat, j: nat)
    requires var b := Run(Initial(policy, now), steps); id in b.mem.attempts && i < j < |b.mem.attempts[id].accepted|
    ensures var accepted := Run(Initial(policy, now), steps).mem.attempts[id].accepted;
            && SameRunOf(accepted[i], accepted[j])
            && (accepted[i].instance.Some? ==>
                 accepted[j].instance.Some? && PhysicalKept(accepted[i].instance.value, accepted[j].instance.value))
  {
    hide Run, PhysicalKept, SameRunOf;
    RunKeepsChains(Initial(policy, now), steps);
    var b := Run(Initial(policy, now), steps);
    assert Chained(b.mem.attempts[id]);
    assert Compatible(Some(b.mem.attempts[id].accepted[i]), Some(b.mem.attempts[id].accepted[j]));
  }

  // ---------------------------------------------------------------- the calls that carry an answer

  /** The snapshot a call carries to its commit was valid when it was looked at, no later than now, under the call's
      authority, and shows the run of the backend's answer. */
  predicate FreshFor(snap: Snapshot, p: Profile, backend: BackendReceipt, authority: Authority, at: Time) {
    && ValidSnapshot(snap, p, at) && snap.authority == authority && snap.profileRevision == p.backendRevision
    && snap.result.runId == backend.runId && snap.result.attempt == backend.attempt
    && ValueGeneration(snap.result.generation) == backend.generation
  }

  ghost predicate CallJudged(th: Thread, now: Time) {
    th.Committing? && th.current.Some? ==>
        exists at :: at <= now && FreshFor(th.current.value, th.p, th.backend, th.authority, at)
  }

  ghost predicate CallsJudged(b: Broker) {
    forall t :: t in b.threads ==> CallJudged(b.threads[t], b.now)
  }

  lemma OwnCallJudged(b: Broker, s: Step)
    requires Enabled(b, s) && Section(s) && ShapedJournal(b.mem) && CallsSane(b)
    ensures var b' := Apply(b, s); CallOf(b, s) in b'.threads ==> CallJudged(b'.threads[CallOf(b, s)], b'.now)
  {
    hide Apply, Enabled, ShapedJournal, CallsSane, FreshFor;
    OwnCall(b, s);
    if s.StepRecheck? {
      RecheckJudged(b, s);
    }
  }

  lemma RecheckJudged(b: Broker, s: Step)
    requires Enabled(b, s) && s.StepRecheck?
    ensures var b' := Apply(b, s); s.t in b'.threads && CallJudged(b'.threads[s.t], b'.now)
  {
    hide Enter, Resume, TailSection, TimeoutSection, AdmitExisting, Submit, Query, BeginFinish, Commit,
        SnapshotObserved, SnapshotSaved, Crashed, Opened, ValidSnapshot;
    var th := b.threads[s.t];
    if s.snap.Some? && SnapshotMatches(th.a, th.p, th.backend, th.authority, s.snap.value, s.at) {
      assert FreshFor(s.snap.value, th.p, th.backend, th.authority, s.at);
    }
  }

  lemma NextKeepsJudged(b: Broker, s: Step)
    requires BrokerOnce.Inv(b) && CallsJudged(b)
    ensures CallsJudged(Next(b, s))
  {
    hide Apply, Enabled, ShapedJournal, CallJudged;
    if Enabled(b, s) {
      var b' := Apply(b, s);
      if Section(s) {
        StepCalls(b, s);
        OwnCallJudged(b, s);
        forall t | t in b'.threads && t != CallOf(b, s)
          ensures CallJudged(b'.threads[t], b'.now)
        {
          BrokerOnce.OtherCallsKept(b, b', CallOf(b, s), t);
          LaterJudged(b.threads[t], b.now, b'.now);
        }
      } else {
        RestartCalls(b, s);
      }
    }
  }

  lemma RestartCalls(b: Broker, s: Step)
    requires Enabled(b, s) && !Section(s)
    ensures Apply(b, s).now == b.now && (Apply(b, s).threads == b.threads || Apply(b, s).threads == map[])
  {
    hide Enter, Resume, TailSection, TimeoutSection, AdmitExisting, Submit, Query, BeginFinish, Recheck, Commit,
        SnapshotObserved, SnapshotSaved;
  }

  lemma LaterJudged(th: Thread, now: Time, later: Time)
    requires CallJudged(th, now) && now <= later
    ensures CallJudged(th, later)
  {
    hide FreshFor;
  }

  lemma {:induction false} RunKeepsJudged(b: Broker, steps: seq<Step>)
    requires BrokerOnce.Inv(b) && CallsJudged(b)
    ensures CallsJudged(Run(b, steps))
    decreases |steps|
  {
    hide BrokerOnce.Inv, CallsJudged, Next;
    if steps != [] {
      RunKeepsJudged(b, steps[..|steps| - 1]);
      BrokerOnce.RunKeepsInv(b, steps[..|steps| - 1]);
      NextKeepsJudged(Run(b, steps[..|steps| - 1]), steps[|steps| - 1]);
    }
  }

  // ---------------------------------------------------------------- a reported stop

  predicate ReportsStop(a: Attempt) {
    a.receipt.stage == ModelStopped || a.receipt.stage == RestartStoppedReceipt
  }

  /** Two witnesses of the same end: of one run, attempt, generation and instance of the profile. */
  predicate WitnessesAgree(profile: ProfileId, backend: BackendReceipt, snap: Snapshot) {
    && backend.result.Some? && backend.result.value.shutdownWitness.Some? && snap.result.shutdownWitness.Some?
    && var told, seen := backend.result.value.shutdownWitness.value, snap.result.shutdownWitness.value;
       && told.modelId == profile && seen.modelId == profile
       && told.runId == backend.runId && seen.runId == backend.runId
       && told.attempt == backend.attempt && seen.attempt == backend.attempt
       && told.generation == backend.generation && seen.generation == backend.generation
       && told.instanceIdentity == seen.instanceIdentity
       && !backend.result.value.processActive && !snap.result.processActive
       && (backend.runId.Some? ==> told.instanceIdentity == DigestOf(WitnessPhysical(told)))
       && (backend.runId.Some? ==> seen.instanceIdentity == DigestOf(WitnessPhysical(seen)))
  }

  lemma StopProvenAgrees(p: Profile, backend: BackendReceipt, snap: Snapshot)
    requires StopProven(p, backend, snap)
    ensures WitnessesAgree(p.id, backend, snap)
  {
  }

  /** The settled record reports a stop exactly when receipt and usable snapshot prove it. */
  lemma SettledReports(b: Broker, r: ActionRequest, p: Profile, backend: BackendReceipt, a: Attempt,
                       current: Option<Snapshot>, x: CommitInputs)
    ensures var settled := Settled(b, r, p, backend, a, current, x);
            && (ReportsStop(settled) <==>
                  !(backend.result.Some? && backend.result.value.effectInvoked == Some(false)) && current.Some?
                      && StopProven(p, backend, current.value))
            && (current.Some? ==> settled.backendSnapshot == current) && (ReportsStop(settled) ==>
                 settled.backendReceipt == Some(backend))
            && (ReportsStop(settled) ==> settled.stage == RestartStopped || settled.stage == Done)
            && (ReportsStop(settled) && settled.stage == Done ==> settled.receipt.status == StatusSucceeded)
  {
    hide StartProven, JudgedInstance, ValidShutdown, ShutdownComplete;
  }

  /** The record left by a commit is the settled one, or reports no stop. */
  lemma CommittedRecord(b: Broker, r: ActionRequest, p: Profile, backend: BackendReceipt, settled: Attempt)
    requires ShapedJournal(Put(b, r.jobId, settled).mem) && (settled.request == ZERO_REQUEST
        || settled.request.operationId != "")
    ensures var j := CommitRecorded(b, r, p, backend, settled).mem;
            r.jobId in j.attempts && (ReportsStop(j.attempts[r.jobId]) ==> j.attempts[r.jobId] == settled)
  {
    hide CloseStarts;
    var stored := Put(b, r.jobId, settled).mem;
    var swept := CloseStarts(stored, settled.receipt, p, backend);
    CloseStartsRewrites(stored, settled.receipt, p, backend);
    CloseStartsReport(stored, settled.receipt, p, backend, r.jobId);
    if ParentAwaits(swept, settled) {
      var parent := settled.request.parentJobId.value;
      assert Shaped(parent, stored.attempts[parent]) && SameRecord(stored.attempts[parent], swept.attempts[parent]);
      if parent == r.jobId { CloseStartsStage(stored, settled.receipt, p, backend, parent); }
      assert parent != r.jobId;
    }
  }

  lemma CloseStartsStage(j: Journal, stop: Receipt, p: Profile, backend: BackendReceipt, k: JobId)
    requires k in j.attempts && j.attempts[k].stage == Done
    ensures CloseStarts(j, stop, p, backend).attempts[k].stage == Done
  {
  }

  lemma CloseStartsReport(j: Journal, stop: Receipt, p: Profile, backend: BackendReceipt, k: JobId)
    requires k in j.attempts
    ensures var j' := CloseStarts(j, stop, p, backend);
            k in j'.attempts && (j'.attempts[k] == j.attempts[k] || !ReportsStop(j'.attempts[k]))
  {
  }

  /** Over every run: when a commit leaves a record that reports a stop, the backend's answer and a snapshot no older
      than the second look carry agreeing shutdown witnesses, and both are on record. */
  lemma ReportedStopIsWitnessed(policy: Policy, now: Time, steps: seq<Step>, t: nat, x: CommitInputs)
    requires var b := Run(Initial(policy, now), steps);
             && Enabled(b, StepCommit(t, x))
             && var th := b.threads[t];
                && !CommitBlocked(b, th.r, th.p, th.backend, th.authority, x.bootId)
                && ReportsStop(AttemptOf(Commit(b, t, th, x).b.mem, th.r.jobId))
    ensures var b := Run(Initial(policy, now), steps); var th := b.threads[t];
        var a := AttemptOf(Commit(b, t, th, x).b.mem, th.r.jobId);
            && th.current.Some? && WitnessesAgree(th.p.id, th.backend, th.current.value)
            && a.backendReceipt == Some(th.backend) && a.backendSnapshot == th.current
            && exists at :: at <= b.now && FreshFor(th.current.value, th.p, th.backend, th.authority, at)
  {
    hide Run, Settled, CommitRecorded, ObservedProfile, FreshFor, WitnessesAgree, ReportsStop, CommitBlocked,
        StopProven, JudgedInstance;
    var b := Run(Initial(policy, now), steps);
    var th := b.threads[t];
    assert BrokerOnce.Inv(Initial(policy, now)) && CallsJudged(Initial(policy, now));
    BrokerOnce.RunKeepsInv(Initial(policy, now), steps);
    RunKeepsJudged(Initial(policy, now), steps);
    assert CallJudged(th, b.now);
    var a := AttemptOf(b.mem, th.r.jobId);
    assert th.r.jobId in b.mem.attempts ==> Shaped(th.r.jobId, a);
    var current := UsableSnapshot(b, a, th.p, th.current);
    var ended := EndThread(b, t);
    var seen := if current.Some? then ended.(mem := Observe(ended.mem, th.p, JudgedInstance(a, th.p, current), x.now))
        else ended;
    var settled := Settled(seen, th.r, th.p, th.backend, a, current, x);
    SettledSame(seen, th.r, th.p, th.backend, a, current, x);
    PutBack(seen, th.r.jobId, settled, x.now);
    CommittedRecord(seen, th.r, th.p, th.backend, settled);
    SettledReports(seen, th.r, th.p, th.backend, a, current, x);
    StopProvenAgrees(th.p, th.backend, current.value);
  }
}
