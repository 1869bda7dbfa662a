/**
  Mutual exclusion and memory: if inspections of other profiles are truthful,
  two profiles that share an exclusion group are never up together, over every
  run; and a start that passes preflight fits into memory beside every
  reservation.
*/
module BrokerExclusion {
  import opened SparkTypes
  import opened BrokerRules
  import opened ExistingRules
  import opened Broker
  import opened BrokerJournal
  import opened BrokerSections
  import BrokerOnce
  import BrokerAuthority

  predicate UpState(s: SupervisorState) {
    s == Running || s == Starting || s == Stopping
  }

  /** An instance that is up, or being brought up, is not reported as stopped, failed or unknown. */
  ghost predicate TruthfulProbes(live: set<ProfileId>, probes: map<ProfileId, Probe>) {
    forall id :: id in probes && id in live && probes[id].Probed? ==> UpState(probes[id].instance.state)
  }

  ghost predicate Truthful(b: Broker, s: Step) {
    s.StepResume? ==> TruthfulProbes(b.live, s.resume.probes)
  }

  predicate Apart(policy: Policy, x: ProfileId, y: ProfileId) {
    var p, q := FindProfile(policy.profiles, x), FindProfile(policy.profiles, y);
    p.Some? && q.Some? ==> !Conflicts(p.value, q.value)
  }

  /** Profiles sharing an exclusion group are not up together. */
  ghost predicate Exclusive(policy: Policy, live: set<ProfileId>) {
    forall x, y :: x in live && y in live && x != y ==> Apart(policy, x, y)
  }

  /** A passed walk saw every conflicting profile down. */
  lemma {:induction false} WalkSawDown(j: Journal, others: seq<Profile>, p: Profile, replace: bool, need: nat,
                                       available: nat,
                                       probes: map<ProfileId, Probe>, now: Time, other: Profile)
    requires PreflightOthers(j, others, p, replace, need, available, probes, now).1.None?
    requires other in others && other.id != p.id && Conflicts(p, other)
    ensures other.id in probes && probes[other.id].Probed? && !UpState(probes[other.id].instance.state)
    decreases |others|
  {
    var first := others[0];
    if first == other {
    } else {
      assert other in others[1..];
      var seen := if first.id != p.id && Conflicts(p, first)
          then Observe(j, first, ProbeOf(probes, first.id).instance, now) else j;
      var left := if first.id != p.id && RuntimeOf(seen, first.id).reserved && first.requiredMemory > 0 && !replace
          then available - first.requiredMemory else available;
      WalkSawDown(seen, others[1..], p, replace, need, left, probes, now, other);
    }
  }

  /** What a section does to the set of instances that are up. */
  ghost predicate Grows(b: Broker, b': Broker, p: Profile) {
    b'.live == b.live || b'.live == b.live + {p.id}
  }

  lemma FinalLive(b: Broker, t: nat, r: ActionRequest, p: Profile, i: Instance, validatedAt: Time, f: FinalInputs)
    ensures var b' := FinalSection(b, t, r, p, i, validatedAt, f).b;
            Grows(b, b', p) && (r.action != Start ==> b'.live == b.live)
  {
    hide Confirmed, Unconfirmed, Withdraw, CloseUnused, RejectPreflight, AdmittedJournal, EffectAttempt;
  }

  lemma EnterLive(b: Broker, r: ActionRequest, bootId: string, e: EnterInputs)
    ensures Enter(b, r, bootId, e).b.live == b.live
  {
    hide FinalSection, Validate, Prune, Duplicate, EnterExisting;
    var p := FindProfile(b.policy.profiles, r.params.profileId);
    if p.Some? && e.probe.Probed? && r.action == Stop {
      var pruned := b.(nextThread := b.nextThread + 1, mem := Prune(b.mem, e.lookAt));
      var checked := pruned.(mem := Validate(pruned.mem, b.policy, b.session, r, p.value, e.probe.instance,
          e.validateAt).0);
      FinalLive(StopAdmission(checked, p.value.id), b.nextThread, r, p.value, e.probe.instance, e.validateAt, e.final);
    }
  }

  lemma ResumeCheckedLive(b: Broker, t: nat, r: ActionRequest, p: Profile, i: Instance, x: ResumeInputs)
    requires Exclusive(b.policy, b.live) && TruthfulProbes(b.live, x.probes)
        && FindProfile(b.policy.profiles, p.id) == Some(p)
    ensures Exclusive(b.policy, ResumeChecked(b, t, r, p, i, x).b.live)
  {
    hide FinalSection, Validate, PreflightOthers, RejectPreflight, Conflicts;
    var seen := Validate(b.mem, b.policy, b.session, r, p, i, x.validateAt).0;
    var walked := Preflight(seen, b.policy, p, r.action == Restart, x.available, x.portFree, x.probes, x.validateAt);
    if walked.1.None? {
      FinalLive(b.(mem := walked.0), t, r, p, i, x.validateAt, x.final);
      PassedIsExclusive(seen, b.policy, p, r.action == Restart, x.available, x.portFree, x.probes, x.validateAt,
          b.live);
    }
  }

  /** A passed preflight leaves room for its profile beside everything that is up. */
  lemma PassedIsExclusive(j: Journal, policy: Policy, p: Profile, replace: bool, available: nat, portFree: bool,
                          probes: map<ProfileId, Probe>, now: Time, live: set<ProfileId>)
    requires Preflight(j, policy, p, replace, available, portFree, probes, now).1.None?
    requires Exclusive(policy, live) && TruthfulProbes(live, probes) && FindProfile(policy.profiles, p.id) == Some(p)
    ensures Exclusive(policy, live + {p.id})
  {
    hide PreflightOthers, Conflicts;
    forall x | x in live && x != p.id && FindProfile(policy.profiles, x).Some?
      ensures !Conflicts(p, FindProfile(policy.profiles, x).value)
          && !Conflicts(FindProfile(policy.profiles, x).value, p)
    {
      var other := FindProfile(policy.profiles, x).value;
      ConflictsSymmetric(p, other);
      if Conflicts(p, other) {
        WalkSawDown(j, policy.profiles, p, replace, MemoryNeed(p), available, probes, now, other);
      }
    }
  }

  lemma ConflictsSymmetric(p: Profile, q: Profile)
    ensures Conflicts(p, q) == Conflicts(q, p)
  {
    assert p.exclusionGroups * q.exclusionGroups == q.exclusionGroups * p.exclusionGroups;
  }

  lemma OthersBringNothingUp(b: Broker, s: Step)
    requires Enabled(b, s) && !s.StepResume? && !s.StepSubmit?
    ensures Apply(b, s).live <= b.live
  {
    hide Enter, Resume, TailSection, TimeoutSection, AdmitExisting, Submit, Query, BeginFinish, Recheck, Commit,
        SnapshotObserved, SnapshotSaved, Crashed, Opened;
    if s.StepEnter? {
      EnterLive(b, s.r, s.bootId, s.enter);
    }
  }

  // ---------------------------------------------------------------- the second coordinator

  /** An approved policy: a profile of the second coordinator is in no exclusion group. */
  predicate GroupsFit(policy: Policy) {
    forall p :: p in policy.profiles && p.kind == ExistingCoordinator ==> p.exclusionGroups == {}
  }

  predicate ExistingCall(policy: Policy, th: Thread) {
    th.ObservingExisting? || th.Submitting? ==>
      FindProfile(policy.profiles, th.r.params.profileId) == Some(th.p) && th.p.kind == ExistingCoordinator
  }

  /** A call that observes or submits does so for a profile of the second coordinator. */
  ghost predicate ExistingCalls(b: Broker) {
    forall t :: t in b.threads ==> ExistingCall(b.policy, b.threads[t])
  }

  lemma EnterExistingCall(b: Broker, r: ActionRequest, bootId: string, e: EnterInputs)
    requires b.nextThread !in b.threads
    ensures var o := Enter(b, r, bootId, e).b;
            b.nextThread in o.threads ==> ExistingCall(b.policy, o.threads[b.nextThread])
  {
    hide EnterDirect;
    var p := FindProfile(b.policy.profiles, r.params.profileId);
    if p.Some? && p.value.kind != ExistingCoordinator {
      EnterDirectThreads(b.(nextThread := b.nextThread + 1), b.nextThread, r, p.value, e);
    }
  }

  lemma AdmitSeenCall(b: Broker, t: nat, r: ActionRequest, p: Profile, snap: Snapshot, authority: Authority, at: Time,
                      w: Write)
    requires t !in b.threads
    ensures var o := AdmitSeen(b, t, r, p, snap, authority, at, w).b;
            t in o.threads ==> o.threads[t].Submitting? && o.threads[t].r == r && o.threads[t].p == p
  {
    hide ExistingRefusal, ExistingJournal, BackendRequestFor;
  }

  lemma AdmitExistingCall(b: Broker, t: nat, th: Thread, snap: Option<Snapshot>, at: Time, w: Write)
    requires th.ObservingExisting?
    ensures var o := AdmitExisting(b, t, th, snap, at, w).b;
            t in o.threads ==> o.threads[t].Submitting? && o.threads[t].r == th.r && o.threads[t].p == th.p
  {
    hide AdmitSeen, Observe, SnapshotInstance;
    var ended := EndThread(b, t);
    if snap.Some? {
      var seen := ended.(mem := Observe(ended.mem, th.p, SnapshotInstance(snap.value, th.p), at));
      AdmitSeenCall(seen, t, th.r, th.p, snap.value, th.authority, at, w);
    }
  }

  /** Only an entry and an admission leave a call that observes or submits. */
  lemma OtherExistingCall(b: Broker, s: Step)
    requires ShapedJournal(b.mem) && CallsSane(b) && Enabled(b, s) && Section(s)
    requires !s.StepEnter? && !s.StepAdmitExisting?
    ensures var t := CallOf(b, s); t in Apply(b, s).threads ==> ExistingCall(b.policy, Apply(b, s).threads[t])
  {
    hide Enter, Resume, TailSection, TimeoutSection, AdmitExisting, Submit, Query, BeginFinish, Recheck, Commit,
        SnapshotObserved, SnapshotSaved, Crashed, Opened, ShapedJournal;
    match s
    case StepResume(t, x) => ResumeThreads(b, t, b.threads[t], x);
    case StepCommit(t, x) => CommitStep(b, t, x);
    case _ =>
  }

  lemma EnteredExistingCall(b: Broker, s: Step)
    requires b.nextThread !in b.threads && Enabled(b, s) && s.StepEnter?
    ensures b.nextThread in Apply(b, s).threads ==> ExistingCall(b.policy, Apply(b, s).threads[b.nextThread])
  {
    hide Enter;
    EnterExistingCall(b, s.r, s.bootId, s.enter);
  }

  lemma AdmittedExistingCall(b: Broker, s: Step)
    requires ExistingCalls(b) && Enabled(b, s) && s.StepAdmitExisting?
    ensures s.t in Apply(b, s).threads ==> ExistingCall(b.policy, Apply(b, s).threads[s.t])
  {
    hide AdmitExisting;
    AdmitExistingCall(b, s.t, b.threads[s.t], s.snap, s.at, s.save);
    assert ExistingCall(b.policy, b.threads[s.t]);
  }

  lemma OwnExistingCall(b: Broker, s: Step)
    requires BrokerOnce.Inv(b) && Enabled(b, s) && Section(s) && ExistingCalls(b)
    ensures var t := CallOf(b, s); t in Apply(b, s).threads ==> ExistingCall(b.policy, Apply(b, s).threads[t])
  {
    hide Apply, Enabled, ShapedJournal, ExistingCall, ExistingCalls;
    if s.StepEnter? {
      EnteredExistingCall(b, s);
    } else if s.StepAdmitExisting? {
      AdmittedExistingCall(b, s);
    } else {
      OtherExistingCall(b, s);
    }
  }

  lemma NextKeepsExistingCalls(b: Broker, s: Step)
    requires BrokerOnce.Inv(b) && BrokerAuthority.AuthorityInv(b) && ExistingCalls(b)
    ensures ExistingCalls(Next(b, s))
  {
    hide Apply, Enabled, ShapedJournal, ExistingCall, BrokerAuthority.AuthorityInv;
    if Enabled(b, s) {
      if Section(s) {
        var b' := Apply(b, s);
        StepCalls(b, s);
        OwnExistingCall(b, s);
        forall t | t in b'.threads
          ensures ExistingCall(b'.policy, b'.threads[t])
        {
          if t != CallOf(b, s) {
            BrokerOnce.OtherCallsKept(b, b', CallOf(b, s), t);
          }
        }
      } else {
        RestartEndsCalls(b, s);
      }
    }
  }

  lemma RestartEndsCalls(b: Broker, s: Step)
    requires BrokerAuthority.AuthorityInv(b) && Enabled(b, s) && !Section(s)
    ensures Apply(b, s).threads == map[]
  {
    hide Enter, Resume, TailSection, TimeoutSection, AdmitExisting, Submit, Query, BeginFinish, Recheck, Commit,
        SnapshotObserved, SnapshotSaved;
  }

  /** A submitted start brings up a profile that shares no group with any other. */
  lemma SubmitExclusive(b: Broker, s: Step, policy: Policy)
    requires ExistingCalls(b) && b.policy == policy && GroupsFit(policy) && Exclusive(policy, b.live)
    requires Enabled(b, s) && s.StepSubmit?
    ensures Exclusive(policy, Apply(b, s).live)
  {
    hide Enter, Resume, TailSection, TimeoutSection, AdmitExisting, Submit, Query, BeginFinish, Recheck, Commit,
        SnapshotObserved, SnapshotSaved, Crashed, Opened;
    var th := b.threads[s.t];
    assert ExistingCall(b.policy, th);
    assert th.p.exclusionGroups == {};
  }

  lemma ResumeExclusive(b: Broker, s: Step, policy: Policy)
    requires BrokerAuthority.AuthorityInv(b) && b.policy == policy && Exclusive(policy, b.live) && Enabled(b, s)
        && s.StepResume? && Truthful(b, s)
    ensures Exclusive(policy, Apply(b, s).live)
  {
    hide Enter, ResumeChecked, TailSection, TimeoutSection, AdmitExisting, Submit, Query, BeginFinish, Recheck, Commit,
        SnapshotObserved, SnapshotSaved, Crashed, Opened, Conflicts, BrokerAuthority.Authorized;
    var th := b.threads[s.t];
    assert FindProfile(b.policy.profiles, th.r.params.profileId) == Some(th.p);
    var back := Unregister(EndThread(b, s.t), s.t, th.p.id);
    if s.resume.probe.Probed? {
      ResumeCheckedLive(back, s.t, th.r, th.p, s.resume.probe.instance, s.resume);
    }
  }

  lemma NextKeepsExclusive(b: Broker, s: Step, policy: Policy)
    requires BrokerAuthority.AuthorityInv(b) && (b.running ==> b.policy == policy) && Exclusive(policy, b.live)
    requires Truthful(b, s) && (s.StepOpen? ==> s.policy == policy) && ExistingCalls(b) && GroupsFit(policy)
    ensures Exclusive(policy, Next(b, s).live)
  {
    hide Apply, Enter, Conflicts, BrokerAuthority.AuthorityInv, ExistingCalls, GroupsFit;
    if Enabled(b, s) {
      if s.StepResume? {
        ResumeExclusive(b, s, policy);
      } else if s.StepSubmit? {
        SubmitExclusive(b, s, policy);
      } else {
        OthersBringNothingUp(b, s);
      }
    }
  }

  lemma PolicyKept(b: Broker, s: Step, policy: Policy)
    requires BrokerOnce.Inv(b) && (b.running ==> b.policy == policy) && (s.StepOpen? ==> s.policy == policy)
    ensures Next(b, s).running ==> Next(b, s).policy == policy
  {
    hide Enter, Resume, TailSection, TimeoutSection, AdmitExisting, Commit, ShapedJournal;
    if Enabled(b, s) && Section(s) {
      StepCalls(b, s);
    }
  }

  ghost predicate TruthfulRun(b: Broker, steps: seq<Step>) {
    forall k :: 0 <= k < |steps| ==> Truthful(Run(b, steps[..k]), steps[k])
  }

  lemma {:induction false} RunKeepsExclusive(b: Broker, steps: seq<Step>, policy: Policy)
    requires BrokerOnce.Inv(b) && BrokerAuthority.AuthorityInv(b) && (b.running ==> b.policy == policy)
        && Exclusive(policy, b.live) && ExistingCalls(b) && GroupsFit(policy)
    requires TruthfulRun(b, steps) && forall k :: 0 <= k < |steps| && steps[k].StepOpen? ==> steps[k].policy == policy
    ensures Exclusive(policy, Run(b, steps).live) && (Run(b, steps).running ==> Run(b, steps).policy == policy)
    ensures ExistingCalls(Run(b, steps))
    decreases |steps|
  {
    hide BrokerOnce.Inv, BrokerAuthority.AuthorityInv, Next, Exclusive, Truthful, ExistingCalls, GroupsFit;
    if steps != [] {
      var prefix, s := steps[..|steps| - 1], steps[|steps| - 1];
      assert forall k :: 0 <= k < |prefix| ==> prefix[..k] == steps[..k] && prefix[k] == steps[k];
      RunKeepsExclusive(b, prefix, policy);
      BrokerOnce.RunKeepsInv(b, prefix);
      BrokerAuthority.RunKeepsAuthority(b, prefix);
      NextKeepsExclusive(Run(b, prefix), s, policy);
      NextKeepsExistingCalls(Run(b, prefix), s);
      PolicyKept(Run(b, prefix), s, policy);
    }
  }

  /** Over every run under one approved policy with truthful inspections, conflicting profiles are never up together,
      whether they were started through the supervisor or through the second coordinator. */
  lemma ConflictingProfilesExclude(policy: Policy, now: Time, steps: seq<Step>)
    requires TruthfulRun(Initial(policy, now), steps) && GroupsFit(policy)
    requires forall k :: 0 <= k < |steps| && steps[k].StepOpen? ==> steps[k].policy == policy
    ensures Exclusive(policy, Run(Initial(policy, now), steps).live)
  {
    hide Run, BrokerOnce.Inv;
    BrokerAuthority.InitiallyAuthorized(policy, now);
    RunKeepsExclusive(Initial(policy, now), steps, policy);
  }

  // ---------------------------------------------------------------- memory

  /** Memory set aside for the reserved profiles other than `p`. */
  function ReservedMemory(j: Journal, others: seq<Profile>, p: Profile): nat {
    if others == [] then 0
    else ReservedMemory(j, others[1..], p) +
         if others[0].id != p.id && RuntimeOf(j, others[0].id).reserved then others[0].requiredMemory else 0
  }

  /** A passed walk adds no reservation. */
  lemma {:induction false} WalkReserves(j: Journal, others: seq<Profile>, p: Profile, need: nat, available: nat,
                                        probes: map<ProfileId, Probe>, now: Time, id: ProfileId)
    requires PreflightOthers(j, others, p, false, need, available, probes, now).1.None?
    ensures RuntimeOf(PreflightOthers(j, others, p, false, need, available, probes, now).0, id).reserved ==>
        RuntimeOf(j, id).reserved
    decreases |others|
  {
    if others != [] {
      var first := others[0];
      var seen := if first.id != p.id && Conflicts(p, first)
          then Observe(j, first, ProbeOf(probes, first.id).instance, now) else j;
      var left := if first.id != p.id && RuntimeOf(seen, first.id).reserved && first.requiredMemory > 0
          then available - first.requiredMemory else available;
      WalkReserves(seen, others[1..], p, need, left, probes, now, id);
    }
  }

  lemma {:induction false} WalkFits(j: Journal, others: seq<Profile>, p: Profile, need: nat, available: nat,
                                    probes: map<ProfileId, Probe>, now: Time)
    requires PreflightOthers(j, others, p, false, need, available, probes, now).1.None? && need <= available
    ensures need + ReservedMemory(PreflightOthers(j, others, p, false, need, available, probes, now).0, others,
        p) <= available
    decreases |others|
  {
    if others != [] {
      var first := others[0];
      var seen := if first.id != p.id && Conflicts(p, first)
          then Observe(j, first, ProbeOf(probes, first.id).instance, now) else j;
      var left := if first.id != p.id && RuntimeOf(seen, first.id).reserved && first.requiredMemory > 0
          then available - first.requiredMemory else available;
      WalkFits(seen, others[1..], p, need, left, probes, now);
      WalkReserves(seen, others[1..], p, need, left, probes, now, first.id);
    }
  }

  /** A start that passes preflight fits: its requirement, its headroom and every reservation together stay within
      the available memory, without wrap-around. */
  lemma PassedFitsMemory(j: Journal, policy: Policy, p: Profile, available: nat, portFree: bool, probes: map<ProfileId,
                         Probe>, now: Time)
    requires Preflight(j, policy, p, false, available, portFree, probes, now).1.None?
    requires p.requiredMemory < WORD && p.osHeadroom < WORD
    ensures p.requiredMemory + p.osHeadroom + ReservedMemory(Preflight(j, policy, p, false, available, portFree, probes,
        now).0, policy.profiles, p) <= available
  {
    assert MemoryNeed(p) == p.requiredMemory + p.osHeadroom;
    WalkFits(j, policy.profiles, p, MemoryNeed(p), available, probes, now);
  }
}
