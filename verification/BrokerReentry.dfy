/**
  A stop and the requests it found in preflight.  A call that comes back from its
  preflight to a closed record goes on as a new call of the same request, and the
  request may be delivered again; so domination is stated here for the request.
  After an admitted stop a request that was in preflight is carried out only by a
  call that entered afterwards while the request had no record.  A request on
  record in memory and in the file is never carried out again, and every start in
  preflight is on record as long as its job id stands for it alone.
*/
module BrokerReentry {
  import opened SparkTypes
  import opened BrokerRules
  import opened ExistingRules
  import opened Broker
  import opened BrokerJournal
  import opened BrokerSections
  import opened BrokerRecords
  import BrokerOnce
  import BrokerAuthority
  import opened BrokerStops
  import BrokerRestarts

  /** Call `t` is in preflight for request `r`. */
  predicate Preflights(b: Broker, t: nat, r: ActionRequest) {
    t in b.threads && b.threads[t].InPreflight? && b.threads[t].r == r
  }

  predicate ActsFor(e: Act, r: ActionRequest) {
    e.Effect? && e.request == r
  }

  // ---------------------------------------------------------------- entering a preflight

  lemma DispatchUnrecorded(b: Broker, t: nat, r: ActionRequest, p: Profile, i: Instance, e: EnterInputs)
    requires t !in b.threads && r.jobId !in b.mem.attempts
    ensures var o := Dispatch(b, t, r, p, i, e).b;
            t in o.threads && o.threads[t].InPreflight? ==>
              && r.action != Stop
              && (r.action == Start ==>
                   o.disk == o.mem && r.jobId in o.mem.attempts && o.mem.attempts[r.jobId].digest == Some(r))
  {
    hide FinalSection, RecordSatisfied, RecordStarting, StopAdmission, EvidenceReceipt;
  }

  /** A call begins a preflight only for a start or restart without a record; a start is then on record, in memory
      and in the file. */
  lemma EnterUnrecorded(b: Broker, r: ActionRequest, bootId: string, e: EnterInputs)
    requires b.nextThread !in b.threads
    ensures var o := Enter(b, r, bootId, e).b;
            b.nextThread in o.threads && o.threads[b.nextThread].InPreflight? ==>
              && r.action != Stop && r.jobId !in b.mem.attempts && ValidId(r.jobId)
              && (r.action == Start ==>
                   o.disk == o.mem && r.jobId in o.mem.attempts && o.mem.attempts[r.jobId].digest == Some(r))
  {
    hide Dispatch, Duplicate, Validate, Prune, EnterExisting;
    var p := FindProfile(b.policy.profiles, r.params.profileId);
    if p.Some? && r.jobId !in b.mem.attempts && e.probe.Probed? {
      BrokerAuthority.PruneShrinks(b.mem, e.lookAt);
      var pruned := b.(nextThread := b.nextThread + 1, mem := Prune(b.mem, e.lookAt));
      ValidateQuiet(pruned.mem, b.policy, b.session, r, p.value, e.probe.instance, e.validateAt);
      var checked := pruned.(mem := Validate(pruned.mem, b.policy, b.session, r, p.value, e.probe.instance,
          e.validateAt).0);
      DispatchUnrecorded(checked, b.nextThread, r, p.value, e.probe.instance, e);
    }
  }

  lemma EnterSilent(b: Broker, r: ActionRequest, bootId: string, e: EnterInputs)
    requires r.action != Stop
    ensures Enter(b, r, bootId, e).b.acts == b.acts
  {
    hide Duplicate, Validate, Prune, FinalSection, EnterExisting, RecordSatisfied, RecordStarting, BeginPreflight;
  }

  /** A preflight found after a step was there before, or the step entered it. */
  lemma PreflightOrigin(b: Broker, s: Step, t: nat, r: ActionRequest)
    requires BrokerOnce.Inv(b) && BrokerAuthority.AuthorityInv(b) && Preflights(Next(b, s), t, r)
    ensures || Preflights(b, t, r)
            || (s.StepEnter? && Enabled(b, s) && s.r == r && t == b.nextThread && r.jobId !in b.mem.attempts
                && r.action != Stop && r.jobId != "")
  {
    hide Apply, Enabled, ShapedJournal, BrokerAuthority.AuthorityInv;
    if Enabled(b, s) {
      if Section(s) {
        StepCalls(b, s);
        if t != CallOf(b, s) {
          BrokerOnce.OtherCallsKept(b, Apply(b, s), CallOf(b, s), t);
        } else if s.StepEnter? {
          EnterOrigin(b, s);
        } else {
          BrokerAuthority.OwnPreflight(b, s);
        }
      } else {
        RestartOrigin(b, s);
      }
    }
  }

  lemma EnterOrigin(b: Broker, s: Step)
    requires Enabled(b, s) && s.StepEnter? && b.nextThread !in b.threads
    ensures var o, t := Apply(b, s), b.nextThread;
            t in o.threads && o.threads[t].InPreflight? ==>
                o.threads[t].r == s.r && s.r.jobId !in b.mem.attempts && s.r.action != Stop && s.r.jobId != ""
  {
    hide Enter;
    EnterUnrecorded(b, s.r, s.bootId, s.enter);
    BrokerAuthority.EnterPreflight(b, s.r, s.bootId, s.enter);
  }

  lemma RestartOrigin(b: Broker, s: Step)
    requires BrokerAuthority.AuthorityInv(b) && Enabled(b, s) && !Section(s)
    ensures Apply(b, s).threads == map[]
  {
    hide Enter, Resume, TailSection, TimeoutSection, AdmitExisting, Submit, Query, BeginFinish, Recheck, Commit,
        SnapshotObserved, SnapshotSaved;
  }

  /** A start or restart is carried out by a call that comes back from its preflight, and by nothing else. */
  lemma EffectOrigin(b: Broker, s: Step, r: ActionRequest)
    requires BrokerAuthority.AuthorityInv(b) && Enabled(b, s) && Section(s) && r.action != Stop
    requires |Apply(b, s).acts| > |b.acts| && ActsFor(Apply(b, s).acts[|b.acts|], r)
    ensures s.StepResume? && Preflights(b, s.t, r) && Apply(b, s).acts[|b.acts|].thread == s.t
  {
    hide Enter, Resume, TailSection, TimeoutSection, AdmitExisting, Submit, Query, BeginFinish, Recheck, Commit,
        SnapshotObserved, SnapshotSaved, BrokerAuthority.Authorized;
    if s.StepSubmit? {
      BrokerRestarts.SubmitIsNoEffect(b, s);
    } else {
      BrokerAuthority.StepAuthorized(b, s);
      if s.StepEnter? {
        EnterSilent(b, s.r, s.bootId, s.enter);
      }
    }
  }

  // ---------------------------------------------------------------- only a later entry carries the request out

  /** Step `k` enters request `r` as call `t` while `r` has no record. */
  predicate Enters(b: Broker, steps: seq<Step>, k: nat, t: nat, r: ActionRequest)
    requires k < |steps|
  {
    var before := Run(b, steps[..k]);
    steps[k].StepEnter? && steps[k].r == r && before.nextThread == t && r.jobId !in before.mem.attempts
  }

  ghost predicate Reentered(b: Broker, steps: seq<Step>, t: nat, r: ActionRequest) {
    exists k :: 0 <= k < |steps| && Enters(b, steps, k, t, r)
  }

  lemma ReenteredBefore(b: Broker, steps: seq<Step>, t: nat, r: ActionRequest)
    requires steps != [] && Reentered(b, steps[..|steps| - 1], t, r)
    ensures Reentered(b, steps, t, r)
  {
    hide Run;
    var front := steps[..|steps| - 1];
    var k :| 0 <= k < |front| && Enters(b, front, k, t, r);
    assert front[..k] == steps[..k] && front[k] == steps[k];
    assert Enters(b, steps, k, t, r);
  }

  lemma ReenteredNow(b: Broker, steps: seq<Step>, t: nat, r: ActionRequest)
    requires steps != []
    requires var before, s := Run(b, steps[..|steps| - 1]), steps[|steps| - 1];
             s.StepEnter? && s.r == r && before.nextThread == t && r.jobId !in before.mem.attempts
    ensures Reentered(b, steps, t, r)
  {
    hide Run;
    assert Enters(b, steps, |steps| - 1, t, r);
  }

  /** Every preflight of `r` is doomed or was entered since. */
  ghost predicate Accounted(b: Broker, steps: seq<Step>, r: ActionRequest) {
    forall t :: Preflights(Run(b, steps), t, r) ==> Doomed(Run(b, steps), t) || Reentered(b, steps, t, r)
  }

  ghost predicate OnlyReentries(b: Broker, steps: seq<Step>, r: ActionRequest) {
    forall i :: |b.acts| <= i < |Run(b, steps).acts| && ActsFor(Run(b, steps).acts[i], r) ==>
        Reentered(b, steps, Run(b, steps).acts[i].thread, r)
  }

  lemma StepAccounted(b: Broker, steps: seq<Step>, r: ActionRequest, t: nat)
    requires steps != [] && Accounted(b, steps[..|steps| - 1], r) && Preflights(Run(b, steps), t, r)
    requires var before := Run(b, steps[..|steps| - 1]); BrokerOnce.Inv(before) && BrokerAuthority.AuthorityInv(before)
    ensures Doomed(Run(b, steps), t) || Reentered(b, steps, t, r)
  {
    hide BrokerOnce.Inv, BrokerAuthority.AuthorityInv, Next, Run, Doomed, Reentered, Preflights, Enabled;
    var front, s := steps[..|steps| - 1], steps[|steps| - 1];
    var before := Run(b, front);
    BrokerRestarts.RunSnoc(b, steps);
    PreflightOrigin(before, s, t, r);
    if Preflights(before, t, r) {
      if Doomed(before, t) {
        DoomedStays(before, s, t);
      } else {
        ReenteredBefore(b, steps, t, r);
      }
    } else {
      ReenteredNow(b, steps, t, r);
    }
  }

  lemma StepOnlyReentries(b: Broker, steps: seq<Step>, r: ActionRequest, i: nat)
    requires r.action != Stop && steps != [] && Accounted(b, steps[..|steps| - 1], r)
        && OnlyReentries(b, steps[..|steps| - 1], r)
    requires var before := Run(b, steps[..|steps| - 1]); BrokerOnce.Inv(before) && BrokerAuthority.AuthorityInv(before)
    requires |b.acts| <= i < |Run(b, steps).acts| && ActsFor(Run(b, steps).acts[i], r)
    ensures Reentered(b, steps, Run(b, steps).acts[i].thread, r)
  {
    hide BrokerOnce.Inv, BrokerAuthority.AuthorityInv, Next, Run, Doomed, Reentered, Preflights, Enabled, Apply;
    var front, s := steps[..|steps| - 1], steps[|steps| - 1];
    var before := Run(b, front);
    BrokerRestarts.RunSnoc(b, steps);
    BrokerRestarts.ActsGrowByOne(before, s);
    if i < |before.acts| {
      assert before.acts[i] == Run(b, steps).acts[i];
    } else {
      BrokerRestarts.NextApplies(before, s);
      EffectOrigin(before, s, r);
      if Doomed(before, s.t) {
        DoomedStays(before, s, s.t);
      }
    }
    ReenteredBefore(b, steps, Run(b, steps).acts[i].thread, r);
  }

  lemma {:induction false} RunOnlyReentries(b: Broker, steps: seq<Step>, r: ActionRequest)
    requires BrokerOnce.Inv(b) && BrokerAuthority.AuthorityInv(b) && r.action != Stop && Accounted(b, [], r)
    ensures Accounted(b, steps, r) && OnlyReentries(b, steps, r)
    decreases |steps|
  {
    hide BrokerOnce.Inv, BrokerAuthority.AuthorityInv, Next, Doomed, Reentered, Preflights, Run;
    BrokerRestarts.RunNone(b);
    if steps != [] {
      var front := steps[..|steps| - 1];
      RunOnlyReentries(b, front, r);
      BrokerOnce.RunKeepsInv(b, front);
      BrokerAuthority.RunKeepsAuthority(b, front);
      forall t | Preflights(Run(b, steps), t, r)
        ensures Doomed(Run(b, steps), t) || Reentered(b, steps, t, r)
      {
        StepAccounted(b, steps, r, t);
      }
      forall i | |b.acts| <= i < |Run(b, steps).acts| && ActsFor(Run(b, steps).acts[i], r)
        ensures Reentered(b, steps, Run(b, steps).acts[i].thread, r)
      {
        StepOnlyReentries(b, steps, r, i);
      }
    }
  }

  // ---------------------------------------------------------------- the stop

  /** A stop is admitted as the next step, while request `r` is in preflight as call `t` on the profile it stops. */
  predicate StopsUnder(b: Broker, stop: ActionRequest, bootId: string, e: EnterInputs, t: nat, r: ActionRequest) {
    Enabled(b, StepEnter(stop, bootId, e)) && Preflights(b, t, r)
        && StoppedProfile(b, stop, e) == Some(b.threads[t].p.id)
  }

  /** Preflights are for starts and restarts, and have an id. */
  ghost predicate NoStops(b: Broker) {
    forall t :: t in b.threads && b.threads[t].InPreflight? ==>
        b.threads[t].r.action != Stop && b.threads[t].r.jobId != ""
  }

  lemma {:induction false} RunNoStops(b: Broker, steps: seq<Step>)
    requires BrokerOnce.Inv(b) && BrokerAuthority.AuthorityInv(b) && NoStops(b)
    ensures NoStops(Run(b, steps))
    decreases |steps|
  {
    hide BrokerOnce.Inv, BrokerAuthority.AuthorityInv, Next;
    if steps != [] {
      var front := steps[..|steps| - 1];
      RunNoStops(b, front);
      BrokerOnce.RunKeepsInv(b, front);
      BrokerAuthority.RunKeepsAuthority(b, front);
      var before, after := Run(b, front), Run(b, steps);
      forall t | t in after.threads && after.threads[t].InPreflight?
        ensures after.threads[t].r.action != Stop && after.threads[t].r.jobId != ""
      {
        PreflightOrigin(before, steps[|steps| - 1], t, after.threads[t].r);
      }
    }
  }

  /** The stop dooms every call that is in preflight for the same request. */
  lemma StopDoomsRequest(b: Broker, stop: ActionRequest, bootId: string, e: EnterInputs, t: nat, r: ActionRequest,
                         u: nat)
    requires BrokerOnce.Inv(b) && BrokerAuthority.AuthorityInv(b) && TokensBehind(b)
        && StopsUnder(b, stop, bootId, e, t, r)
    requires Preflights(Next(b, StepEnter(stop, bootId, e)), u, r) && r.action != Stop
    ensures Doomed(Next(b, StepEnter(stop, bootId, e)), u)
  {
    hide BrokerOnce.Inv, StoppedProfile, Enter, BrokerAuthority.Authorized, Doomed;
    PreflightOrigin(b, StepEnter(stop, bootId, e), u, r);
    assert stop.action == Stop by { StopIsStop(b, stop, e); }
    assert b.threads[u].p == b.threads[t].p;
    StopDooms(b, stop, bootId, e, u);
  }

  lemma StopIsStop(b: Broker, stop: ActionRequest, e: EnterInputs)
    requires StoppedProfile(b, stop, e).Some?
    ensures stop.action == Stop && stop.jobId !in b.mem.attempts
  {
  }

  /** What every run keeps. */
  lemma Reachable(policy: Policy, now: Time, steps: seq<Step>)
    ensures var b := Run(Initial(policy, now), steps);
            BrokerOnce.Inv(b) && BrokerAuthority.AuthorityInv(b) && TokensBehind(b) && NoStops(b)
  {
    hide BrokerOnce.Inv, BrokerAuthority.AuthorityInv, Run, Initial, TokensBehind;
    BrokerAuthority.InitiallyAuthorized(policy, now);
    InitiallyBehind(policy, now);
    assert NoStops(Initial(policy, now)) by { InitiallyNoStops(policy, now); }
    BrokerOnce.RunKeepsInv(Initial(policy, now), steps);
    BrokerAuthority.RunKeepsAuthority(Initial(policy, now), steps);
    RunKeepsTokensBehind(Initial(policy, now), steps);
    RunNoStops(Initial(policy, now), steps);
  }

  lemma InitiallyNoStops(policy: Policy, now: Time)
    ensures NoStops(Initial(policy, now))
  {
  }

  /** After any run, let a stop be admitted while request `r` is in preflight on its profile.  In every continuation
      a supervisor call for `r` is made only by a call that entered after the stop, at a moment when `r` had no
      record. */
  lemma StopDominatesRequest(policy: Policy, now: Time, before: seq<Step>, stop: ActionRequest, bootId: string,
                             e: EnterInputs,
                             t: nat, r: ActionRequest, after: seq<Step>)
    requires StopsUnder(Run(Initial(policy, now), before), stop, bootId, e, t, r)
    ensures var b := Run(Initial(policy, now), before); var stopped := Next(b, StepEnter(stop, bootId, e));
            && (forall i :: |b.acts| <= i < |stopped.acts| ==> !ActsFor(stopped.acts[i], r))
            && OnlyReentries(stopped, after, r)
  {
    hide BrokerOnce.Inv, BrokerAuthority.AuthorityInv, Run, Initial, Next, Preflights, Doomed, StoppedProfile,
        TokensBehind, Enabled, OnlyReentries, Reentered;
    var b, s := Run(Initial(policy, now), before), StepEnter(stop, bootId, e);
    Reachable(policy, now, before);
    BrokerOnce.NextKeepsInv(b, s);
    BrokerAuthority.NextKeepsAuthority(b, s);
    var stopped := Next(b, s);
    assert r.action != Stop by { PreflightIsNoStop(b, t, r); }
    BrokerRestarts.RunNone(stopped);
    forall u | Preflights(stopped, u, r)
      ensures Doomed(stopped, u)
    {
      StopDoomsRequest(b, stop, bootId, e, t, r, u);
    }
    RunOnlyReentries(stopped, after, r);
    BrokerRestarts.ActsGrowByOne(b, s);
    if |stopped.acts| > |b.acts| && ActsFor(stopped.acts[|b.acts|], r) {
      BrokerRestarts.NextApplies(b, s);
      EffectOrigin(b, s, r);
    }
  }

  lemma PreflightIsNoStop(b: Broker, t: nat, r: ActionRequest)
    requires NoStops(b) && Preflights(b, t, r)
    ensures r.action != Stop && r.jobId != ""
  {
  }

  // ---------------------------------------------------------------- exactly when a request is carried out

  /** The guards of an entry that begins the preflight of a restart. */
  predicate MayBegin(b: Broker, r: ActionRequest, e: EnterInputs) {
    var p := FindProfile(b.policy.profiles, r.params.profileId);
    && ValidId(r.jobId) && ValidId(r.operationId) && p.Some? && p.value.kind != ExistingCoordinator
    && r.jobId !in b.mem.attempts && |Prune(b.mem, e.lookAt).attempts| < 2048
    && e.probe.Probed? && e.probe.instance.state == Running && e.definition == Some(p.value.definitionHash)
    && Validate(Prune(b.mem, e.lookAt), b.policy, b.session, r, p.value, e.probe.instance, e.validateAt).1.None?
  }

  lemma DispatchedRestart(b: Broker, t: nat, r: ActionRequest, p: Profile, i: Instance, e: EnterInputs)
    requires r.action == Restart && t !in b.threads
    ensures var o := Dispatch(b, t, r, p, i, e).b;
            if e.definition == Some(p.definitionHash) && i.state == Running
            then o == b.(threads := b.threads[t := InPreflight(r, p, i, TokenOf(b, p.id))]) else t !in o.threads
  {
    hide FinalSection, RecordSatisfied, RecordStarting, StopAdmission, EvidenceReceipt;
  }

  /** Every broker: a delivered restart begins a preflight exactly under these guards, with the token of that moment
      and still without a record. */
  lemma RestartBeginsExactly(b: Broker, r: ActionRequest, bootId: string, e: EnterInputs)
    requires r.action == Restart && b.nextThread !in b.threads
    ensures var o, t := Enter(b, r, bootId, e).b, b.nextThread;
            && (Preflights(o, t, r) <==> MayBegin(b, r, e))
            && (Preflights(o, t, r) ==>
                  r.jobId !in o.mem.attempts && o.acts == b.acts && o.threads[t].token == TokenOf(o, o.threads[t].p.id))
  {
    hide Dispatch, Duplicate, Validate, Prune, EnterExisting;
    var p := FindProfile(b.policy.profiles, r.params.profileId);
    if p.Some? && r.jobId !in b.mem.attempts && e.probe.Probed? {
      BrokerAuthority.PruneShrinks(b.mem, e.lookAt);
      var pruned := b.(nextThread := b.nextThread + 1, mem := Prune(b.mem, e.lookAt));
      var at, i := e.validateAt, e.probe.instance;
      ValidateQuiet(pruned.mem, b.policy, b.session, r, p.value, i, at);
      var checked := pruned.(mem := Validate(pruned.mem, b.policy, b.session, r, p.value, i, at).0);
      DispatchedRestart(checked, b.nextThread, r, p.value, i, e);
    }
  }

  /** The guards of the last admission. */
  predicate MayFire(j: Journal, r: ActionRequest, p: Profile, f: FinalInputs) {
    && (p.usesSharedLock ==> f.lockFree) && (r.parentJobId.Some? ==> ParentStopped(j, r, p))
    && f.definition == Some(p.definitionHash) && f.admitAt < r.deadline && f.firstSave == Synced
    && f.effectAt < r.deadline
  }

  /** One act was added, a supervisor call of call `t` for `r`. */
  ghost predicate ActedOnce(acts: seq<Act>, acts': seq<Act>, t: nat, r: ActionRequest) {
    |acts'| == |acts| + 1 && acts <= acts' && ActsFor(acts'[|acts|], r) && acts'[|acts|].thread == t
  }

  lemma FiresExactly(b: Broker, t: nat, r: ActionRequest, p: Profile, i: Instance, validatedAt: Time, f: FinalInputs)
    ensures var o := FinalSection(b, t, r, p, i, validatedAt, f).b;
            if MayFire(b.mem, r, p, f) then ActedOnce(b.acts, o.acts, t, r) else o.acts == b.acts
  {
    hide AdmittedJournal, EffectAttempt, RejectPreflight, Unconfirmed, Confirmed, Withdraw, CloseUnused;
  }

  /** The guards of a return from the preflight, up to the effect. */
  predicate MayAct(b: Broker, t: nat, x: ResumeInputs)
    requires t in b.threads && b.threads[t].InPreflight?
  {
    var th := b.threads[t];
    var r, p := th.r, th.p;
    && Unrecorded(b.mem, r) && TokenOf(b, p.id) == th.token && x.weights.None? && x.probe.Probed?
    && var (seen, refused) := Validate(b.mem, b.policy, b.session, r, p, x.probe.instance, x.validateAt);
       && refused.None?
       && Preflight(seen, b.policy, p, r.action == Restart, x.available, x.portFree, x.probes, x.validateAt).1.None?
       && MayFire(b.mem, r, p, x.final)
  }

  lemma CheckedActsExactly(b: Broker, t: nat, r: ActionRequest, p: Profile, i: Instance, x: ResumeInputs)
    ensures var (seen, refused) := Validate(b.mem, b.policy, b.session, r, p, i, x.validateAt);
            var busy :=
              Preflight(seen, b.policy, p, r.action == Restart, x.available, x.portFree, x.probes, x.validateAt).1;
            var o := ResumeChecked(b, t, r, p, i, x).b;
            if refused.None? && busy.None? && MayFire(b.mem, r, p, x.final)
            then ActedOnce(b.acts, o.acts, t, r) else o.acts == b.acts
  {
    hide FinalSection, Validate, PreflightOthers, RejectPreflight;
    var (seen, refused) := Validate(b.mem, b.policy, b.session, r, p, i, x.validateAt);
    ValidateQuiet(b.mem, b.policy, b.session, r, p, i, x.validateAt);
    BrokerAuthority.PreflightOthersLeaves(seen, b.policy.profiles, p, r.action == Restart, MemoryNeed(p), x.available,
        x.probes, x.validateAt);
    var walked :=
      Preflight(seen, b.policy, p, r.action == Restart, x.available, x.portFree, x.probes, x.validateAt).0;
    FiresExactly(b.(mem := walked), t, r, p, i, x.validateAt, x.final);
  }

  /** Every broker: a call that comes back from its preflight reaches the supervisor exactly under these guards. */
  lemma ResumeActsExactly(b: Broker, t: nat, x: ResumeInputs)
    requires t in b.threads && b.threads[t].InPreflight?
    ensures var o := Resume(b, t, b.threads[t], x).b;
            if MayAct(b, t, x) then ActedOnce(b.acts, o.acts, t, b.threads[t].r) else o.acts == b.acts
  {
    hide ResumeChecked, RejectPreflight, Validate, Preflight, MayFire;
    var th := b.threads[t];
    var back := Unregister(EndThread(b, t), t, th.p.id);
    if x.probe.Probed? {
      CheckedActsExactly(back, t, th.r, th.p, x.probe.instance, x);
    }
  }

  /** A restart without a record, delivered to any broker and come back: under both guards it is carried out. */
  lemma DeliveredRestartActs(b: Broker, r: ActionRequest, bootId: string, e: EnterInputs, x: ResumeInputs)
    requires BrokerOnce.Inv(b) && r.action == Restart && Enabled(b, StepEnter(r, bootId, e)) && MayBegin(b, r, e)
    requires var b' := Next(b, StepEnter(r, bootId, e)); var t := b.nextThread;
             Enabled(b', StepResume(t, x)) && MayAct(b', t, x)
    ensures var b' := Next(b, StepEnter(r, bootId, e)); var t := b.nextThread;
            ActedOnce(b.acts, Next(b', StepResume(t, x)).acts, t, r)
  {
    hide Enter, Resume, MayBegin, MayAct, Validate, Prune, ShapedJournal;
    RestartBeginsExactly(b, r, bootId, e);
    ResumeActsExactly(Next(b, StepEnter(r, bootId, e)), b.nextThread, x);
  }

  /** The step brings a call of `r` back from its preflight, under the guards of the effect. */
  predicate CarriesOut(b: Broker, s: Step, r: ActionRequest) {
    s.StepResume? && Preflights(b, s.t, r) && MayAct(b, s.t, s.resume)
  }

  ghost predicate NewAct(b: Broker, s: Step, r: ActionRequest) {
    |Next(b, s).acts| > |b.acts| && ActsFor(Next(b, s).acts[|b.acts|], r)
  }

  /** In any broker, a step carries out a start or restart exactly when it brings a call back under the guards. */
  lemma StepActsExactly(b: Broker, s: Step, r: ActionRequest)
    requires BrokerOnce.Inv(b) && BrokerAuthority.AuthorityInv(b) && r.action != Stop
    ensures NewAct(b, s, r) <==> Enabled(b, s) && CarriesOut(b, s, r)
  {
    hide Apply, MayAct, Preflights, BrokerOnce.Inv, BrokerAuthority.AuthorityInv;
    BrokerRestarts.ActsGrowByOne(b, s);
    if Enabled(b, s) && s.StepResume? && Preflights(b, s.t, r) {
      ResumeStepActs(b, s, r);
    }
    if NewAct(b, s, r) {
      EffectOrigin(b, s, r);
    }
  }

  lemma ResumeStepActs(b: Broker, s: Step, r: ActionRequest)
    requires Enabled(b, s) && s.StepResume? && Preflights(b, s.t, r)
    ensures NewAct(b, s, r) <==> MayAct(b, s.t, s.resume)
  {
    hide Enter, Resume, TailSection, TimeoutSection, AdmitExisting, Submit, Query, BeginFinish, Recheck, Commit,
        SnapshotObserved, SnapshotSaved, Crashed, Opened, MayAct;
    ResumeActsExactly(b, s.t, s.resume);
  }

  /** After any run let a stop be admitted while `r` is in preflight on its profile.  In every continuation a step
      carries `r` out if and only if it brings a call of `r` back under the guards, and that call entered after the
      stop while `r` had no record. */
  lemma ActsAfterStopExactly(policy: Policy, now: Time, before: seq<Step>, stop: ActionRequest, bootId: string,
                             e: EnterInputs, t: nat, r: ActionRequest, after: seq<Step>, s: Step)
    requires StopsUnder(Run(Initial(policy, now), before), stop, bootId, e, t, r)
    ensures var stopped := Next(Run(Initial(policy, now), before), StepEnter(stop, bootId, e));
            var b := Run(stopped, after);
            NewAct(b, s, r) <==> Enabled(b, s) && CarriesOut(b, s, r) && Reentered(stopped, after, s.t, r)
  {
    hide BrokerOnce.Inv, BrokerAuthority.AuthorityInv, Run, Initial, Next, Preflights, Doomed, StoppedProfile,
        TokensBehind, Enabled, Reentered, MayAct;
    var found, enter := Run(Initial(policy, now), before), StepEnter(stop, bootId, e);
    Reachable(policy, now, before);
    PreflightIsNoStop(found, t, r);
    BrokerOnce.NextKeepsInv(found, enter);
    BrokerAuthority.NextKeepsAuthority(found, enter);
    var stopped := Next(found, enter);
    BrokerOnce.RunKeepsInv(stopped, after);
    BrokerAuthority.RunKeepsAuthority(stopped, after);
    var b := Run(stopped, after);
    StepActsExactly(b, s, r);
    if NewAct(b, s, r) {
      AccountedAfterStop(policy, now, before, stop, bootId, e, t, r, after);
      if Doomed(b, s.t) {
        DoomedCannotAct(b, s, r);
      }
    }
  }

  /** Whatever is in preflight for `r` after the stop is doomed or entered since. */
  lemma AccountedAfterStop(policy: Policy, now: Time, before: seq<Step>, stop: ActionRequest, bootId: string,
                           e: EnterInputs, t: nat, r: ActionRequest, after: seq<Step>)
    requires StopsUnder(Run(Initial(policy, now), before), stop, bootId, e, t, r)
    ensures Accounted(Next(Run(Initial(policy, now), before), StepEnter(stop, bootId, e)), after, r)
  {
    hide BrokerOnce.Inv, BrokerAuthority.AuthorityInv, Run, Initial, Next, Preflights, Doomed, StoppedProfile,
        TokensBehind, Enabled, Reentered;
    var b, s := Run(Initial(policy, now), before), StepEnter(stop, bootId, e);
    Reachable(policy, now, before);
    BrokerOnce.NextKeepsInv(b, s);
    BrokerAuthority.NextKeepsAuthority(b, s);
    var stopped := Next(b, s);
    PreflightIsNoStop(b, t, r);
    BrokerRestarts.RunNone(stopped);
    forall u | Preflights(stopped, u, r)
      ensures Doomed(stopped, u)
    {
      StopDoomsRequest(b, stop, bootId, e, t, r, u);
    }
    RunOnlyReentries(stopped, after, r);
  }

  lemma DoomedCannotAct(b: Broker, s: Step, r: ActionRequest)
    requires CarriesOut(b, s, r)
    ensures !Doomed(b, s.t)
  {
    hide Validate, Preflight, MayFire;
  }

  // ---------------------------------------------------------------- requests on record

  predicate Recorded(j: Journal, r: ActionRequest) {
    r.jobId in j.attempts && j.attempts[r.jobId].digest == Some(r)
  }

  predicate Pending(j: Journal, r: ActionRequest) {
    r.jobId in j.attempts && j.attempts[r.jobId].stage == PreflightPending
  }

  /** Some call is in preflight under this job id. */
  ghost predicate IdPreflights(b: Broker, id: JobId) {
    exists t :: t in b.threads && b.threads[t].InPreflight? && b.threads[t].r.jobId == id
  }

  /** The request is on record in memory and in the file, and no call can still carry it out; or its lease is over. */
  ghost predicate Barred(b: Broker, r: ActionRequest) {
    r.deadline <= b.now || (Recorded(b.mem, r) && Recorded(b.disk, r)
        && (Pending(b.mem, r) ==> !IdPreflights(b, r.jobId)))
  }

  /** The journal after a step still has the record, or it was dropped when its lease was long over. */
  predicate Remains(j: Journal, j': Journal, r: ActionRequest, now: Time) {
    Recorded(j, r) ==> Recorded(j', r) || r.deadline <= now
  }

  lemma MovesRemain(j: Journal, j': Journal, r: ActionRequest, served: ActionRequest, now: Time)
    requires ShapedJournal(j) && Moves(j, j', r.jobId, served, now) && served.jobId != r.jobId
    ensures Remains(j, j', r, now)
  {
    hide ChainOk;
    if Recorded(j, r) {
      assert Shaped(r.jobId, j.attempts[r.jobId]);
    }
  }

  /** A step that serves another job id leaves the record, in memory and in what it saves. */
  lemma OthersRemain(b: Broker, s: Step, r: ActionRequest)
    requires ShapedJournal(b.mem) && Enabled(b, s) && Section(s) && RequestOf(b, s).jobId != r.jobId
    ensures var b' := Apply(b, s);
            Remains(b.mem, b'.mem, r, b'.now) && (b'.disk == b.disk || Remains(b.mem, b'.disk, r, b'.now))
  {
    hide Apply, Enabled, Moves, Remains, ShapedJournal;
    var b' := Apply(b, s);
    if OwnEnding(b, s, r.jobId) {
      EndingServes(b, s, r.jobId);
    }
    StepTidy(b, s, r.jobId);
    MovesRemain(b.mem, b'.mem, r, RequestOf(b, s), b'.now);
    if b'.disk != b.disk {
      MovesRemain(b.mem, b'.disk, r, RequestOf(b, s), b'.now);
    }
  }

  lemma EndingServes(b: Broker, s: Step, id: JobId)
    requires OwnEnding(b, s, id)
    ensures RequestOf(b, s).jobId == id
  {
  }

  /** The record is still there with its digest, in memory and in what was saved. */
  predicate Keeps(b: Broker, b': Broker, r: ActionRequest) {
    Recorded(b.mem, r) ==> Recorded(b'.mem, r) && (b'.disk == b.disk || Recorded(b'.disk, r))
  }

  lemma DuplicateKeeps(b: Broker, served: ActionRequest, p: Profile, e: EnterInputs, r: ActionRequest)
    requires served.jobId == r.jobId && Recorded(b.mem, r) && b.mem.attempts[r.jobId].request.jobId == r.jobId
    ensures Keeps(b, Duplicate(b, served, p, e).b, r)
  {
    hide Reconcile;
    var prior := b.mem.attempts[r.jobId];
    if prior.digest == Some(served) && e.probe.Probed? {
      ReconcileSame(b.mem, b.session, prior, p, e.probe.instance, e.lookAt);
    }
  }

  lemma EnterKeeps(b: Broker, served: ActionRequest, bootId: string, e: EnterInputs, r: ActionRequest)
    requires ShapedJournal(b.mem) && served.jobId == r.jobId && Recorded(b.mem, r)
    ensures Keeps(b, Enter(b, served, bootId, e).b, r)
  {
    hide Duplicate, Dispatch, EnterExisting, Validate;
    assert Shaped(r.jobId, b.mem.attempts[r.jobId]);
    var p := FindProfile(b.policy.profiles, served.params.profileId);
    if p.Some? {
      DuplicateKeeps(b.(nextThread := b.nextThread + 1), served, p.value, e, r);
    }
  }

  lemma TailKeeps(b: Broker, t: nat, served: ActionRequest, p: Profile, after: Instance, at: Time, w: Write,
                  r: ActionRequest)
    requires ShapedJournal(b.mem) && served.jobId == r.jobId && Recorded(b.mem, r)
    ensures Keeps(b, TailSection(b, t, served, p, after, at, w).b, r)
  {
    hide TailSection, TailRecorded, StopCancelled, ObservedProfile;
    TailForms(b, t, served, p, after, at, w);
    var a := AttemptOf(b.mem, r.jobId);
    assert Shaped(r.jobId, a);
    var seen := EndThread(b, t).(mem := Observe(b.mem, p, after, at));
    TailRecordedKeeps(seen, served, p, after, a, at, r);
  }

  lemma TailRecordedKeeps(b: Broker, served: ActionRequest, p: Profile, after: Instance, a: Attempt, at: Time,
                          r: ActionRequest)
    requires ShapedJournal(b.mem) && served.jobId == r.jobId && Recorded(b.mem, r) && a == b.mem.attempts[r.jobId]
    ensures Recorded(TailRecorded(b, served, p, after, a, at).mem, r)
        && TailRecorded(b, served, p, after, a, at).disk == b.disk
  {
    hide TailAttempt, FinishStoppedStarts, FinishParent, ShapedJournal;
    ShapedAt(b.mem, r.jobId);
    var finished := TailAttempt(b, a, served, p, after, at);
    TailAttemptSame(b, a, served, p, after, at);
    var held := b.(mem := if served.action == Restart then HoldReservation(b.mem, p.id, at) else b.mem);
    assert ShapedJournal(held.mem) by { HeldShaped(b.mem, held.mem); }
    PutBack(held, served.jobId, finished, at);
    var stored := Put(held, served.jobId, finished).mem;
    var swept := FinishStoppedStarts(stored, finished);
    FinishStoppedStartsRewrites(stored, finished);
    RewritesKeep(stored, swept, at);
    FinishParentRewrites(swept, finished);
  }

  lemma ShapedAt(j: Journal, k: JobId)
    requires ShapedJournal(j) && k in j.attempts
    ensures Shaped(k, j.attempts[k])
  {
  }

  lemma HeldShaped(j: Journal, j': Journal)
    requires ShapedJournal(j) && j'.attempts == j.attempts
    ensures ShapedJournal(j')
  {
  }

  lemma TimeoutKeeps(b: Broker, t: nat, served: ActionRequest, p: Profile, last: Instance, at: Time, w: Write,
                     r: ActionRequest)
    requires served.jobId == r.jobId && Recorded(b.mem, r)
    ensures Keeps(b, TimeoutSection(b, t, served, p, last, at, w).b, r)
  {
    hide EvidenceReceipt;
  }

  lemma CommitKeeps(b: Broker, t: nat, th: Thread, x: CommitInputs, r: ActionRequest)
    requires ShapedJournal(b.mem) && th.Committing? && th.r.jobId == r.jobId && Recorded(b.mem, r)
    ensures Keeps(b, Commit(b, t, th, x).b, r)
  {
    hide Settled, CommitRecorded, ObservedProfile, Compatible, JudgedInstance, ShapedJournal, Onward, Chained;
    var a := AttemptOf(b.mem, th.r.jobId);
    if !CommitBlocked(b, th.r, th.p, th.backend, th.authority, x.bootId) {
      var current := UsableSnapshot(b, a, th.p, th.current);
      var ended := EndThread(b, t);
      var seen := if current.Some? then ended.(mem := Observe(ended.mem, th.p, JudgedInstance(a, th.p, current), x.now))
          else ended;
      assert ShapedJournal(seen.mem) by { HeldShaped(b.mem, seen.mem); }
      SettledSame(seen, th.r, th.p, th.backend, a, current, x);
      SettledMoves(seen, th.r, th.p, th.backend, a, current, x);
      CommitRecordedKeeps(seen, th.r, th.p, th.backend, a, Settled(seen, th.r, th.p, th.backend, a, current, x), r,
          x.now);
    }
  }

  lemma CommitRecordedKeeps(b: Broker, served: ActionRequest, p: Profile, backend: BackendReceipt, a: Attempt,
                            settled: Attempt, r: ActionRequest, at: Time)
    requires ShapedJournal(b.mem) && served.jobId == r.jobId && Recorded(b.mem, r) && a == b.mem.attempts[r.jobId]
    requires SameRecord(a, settled) && settled.digest == a.digest
    ensures Recorded(CommitRecorded(b, served, p, backend, settled).mem, r)
        && CommitRecorded(b, served, p, backend, settled).disk == b.disk
  {
    hide FinishParent, CloseStarts, ShapedJournal;
    ShapedAt(b.mem, r.jobId);
    PutBack(b, served.jobId, settled, at);
    var stored := Put(b, served.jobId, settled).mem;
    var swept := CloseStarts(stored, settled.receipt, p, backend);
    CloseStartsRewrites(stored, settled.receipt, p, backend);
    RewritesKeep(stored, swept, at);
    FinishParentRewrites(swept, settled);
  }

  lemma QuietKeepsRecord(b: Broker, s: Step, r: ActionRequest)
    requires Enabled(b, s) && (Small(s) || s.StepSubmit?)
    ensures Keeps(b, Apply(b, s), r)
  {
    hide ObservedProfile, Enter, Resume, TailSection, TimeoutSection, AdmitExisting, Commit, Crashed, Opened;
  }

  /** A step that serves the job id keeps the record, unless it is the return from a preflight. */
  lemma OwnKeeps(b: Broker, s: Step, r: ActionRequest)
    requires ShapedJournal(b.mem) && Enabled(b, s) && Section(s) && !s.StepResume? && RequestOf(b, s).jobId == r.jobId
        && Recorded(b.mem, r)
    ensures Keeps(b, Apply(b, s), r)
  {
    hide Enter, Resume, AdmitExisting, Commit, TailSection, TimeoutSection, Keeps, Recorded;
    match s
    case StepEnter(served, bootId, e) =>
      EnterKeeps(b, served, bootId, e, r);
      KeepsLater(b, Enter(b, served, bootId, e).b, r, e.final.effectAt);
    case StepTail(t, verified, at, w) =>
      var th := b.threads[t];
      var after := if SupervisorAction(th.r.action) == Stop then verified else th.after;
      TailKeeps(b, t, th.r, th.p, after, at, w, r);
      KeepsLater(b, TailSection(b, t, th.r, th.p, after, at, w).b, r, at);
    case StepTimeout(t, last, at, w) =>
      TimeoutKeeps(b, t, b.threads[t].r, b.threads[t].p, last, at, w, r);
      KeepsLater(b, TimeoutSection(b, t, b.threads[t].r, b.threads[t].p, last, at, w).b, r, at);
    case StepAdmitExisting(t, snap, at, w) => AdmitKeeps(b, s, r);
    case StepCommit(t, x) =>
      CommitKeeps(b, t, b.threads[t], x, r);
      KeepsLater(b, Commit(b, t, b.threads[t], x).b, r, x.now);
    case _ => QuietKeepsRecord(b, s, r);
  }

  lemma KeepsLater(b: Broker, b': Broker, r: ActionRequest, at: Time)
    requires Keeps(b, b', r)
    ensures Keeps(b, b'.(now := at), r)
  {
  }

  lemma AdmitKeeps(b: Broker, s: Step, r: ActionRequest)
    requires Enabled(b, s) && s.StepAdmitExisting? && b.threads[s.t].r.jobId == r.jobId && Recorded(b.mem, r)
    ensures Keeps(b, Apply(b, s), r)
  {
    hide AdmitSeen, ObservedProfile;
  }

  /** A return from a preflight that finds a record which does not wait changes nothing. */
  lemma ResumeFindsRecord(b: Broker, s: Step, r: ActionRequest)
    requires Enabled(b, s) && s.StepResume? && b.threads[s.t].r.jobId == r.jobId && Recorded(b.mem, r)
        && !Pending(b.mem, r)
    ensures Keeps(b, Apply(b, s), r) && Apply(b, s).acts == b.acts
  {
    hide ResumeChecked, RejectPreflight;
  }

  lemma SectionRemains(b: Broker, s: Step, r: ActionRequest)
    requires BrokerOnce.Inv(b) && Enabled(b, s) && Section(s) && r.deadline > Apply(b, s).now && r.jobId != ""
    requires Recorded(b.mem, r) && Recorded(b.disk, r) && (Pending(b.mem, r) ==> !IdPreflights(b, r.jobId))
    ensures Recorded(Apply(b, s).mem, r) && Recorded(Apply(b, s).disk, r)
  {
    hide Apply, Enabled, Recorded, Pending, ShapedJournal;
    assert ShapedJournal(b.mem);
    if RequestOf(b, s).jobId != r.jobId {
      OthersRemain(b, s, r);
    } else if s.StepResume? {
      ResumePreflights(b, s, r);
      ResumeFindsRecord(b, s, r);
    } else {
      OwnKeeps(b, s, r);
    }
  }

  lemma ResumePreflights(b: Broker, s: Step, r: ActionRequest)
    requires Enabled(b, s) && s.StepResume? && RequestOf(b, s).jobId == r.jobId
    ensures IdPreflights(b, r.jobId) && s.t in b.threads && b.threads[s.t].r.jobId == r.jobId
  {
  }

  /** A record that no longer waits does not wait again. */
  lemma StaysSettled(b: Broker, s: Step, r: ActionRequest)
    requires BrokerOnce.Inv(b) && Enabled(b, s) && Section(s) && Recorded(b.mem, r) && !Pending(b.mem, r)
        && r.deadline > Apply(b, s).now
    ensures !Pending(Apply(b, s).mem, r)
  {
    hide Apply, Enabled, ShapedJournal;
    if s.StepSubmit? {
      SubmitKeepsMem(b, s);
    } else {
      StepCareful(b, s);
    }
  }

  lemma SubmitKeepsMem(b: Broker, s: Step)
    requires Enabled(b, s) && s.StepSubmit?
    ensures Apply(b, s).mem == b.mem
  {
    hide Enter, Resume, TailSection, TimeoutSection, AdmitExisting, Query, BeginFinish, Recheck, Commit,
        SnapshotObserved, SnapshotSaved;
  }

  lemma TimeMoves(b: Broker, s: Step)
    requires BrokerOnce.Inv(b) && Enabled(b, s) && Section(s)
    ensures b.now <= Apply(b, s).now
  {
    hide Apply, Enabled, ShapedJournal;
    StepCalls(b, s);
  }

  lemma SectionBars(b: Broker, s: Step, r: ActionRequest)
    requires BrokerOnce.Inv(b) && BrokerAuthority.AuthorityInv(b) && Enabled(b, s) && Section(s) && Barred(b, r)
        && r.jobId != ""
    ensures Barred(Apply(b, s), r)
  {
    hide Apply, Enabled, BrokerOnce.Inv, BrokerAuthority.AuthorityInv, Recorded, Pending;
    TimeMoves(b, s);
    var b' := Apply(b, s);
    if r.deadline > b'.now {
      SectionRemains(b, s, r);
      if Pending(b.mem, r) {
        forall t | t in b'.threads && b'.threads[t].InPreflight?
          ensures b'.threads[t].r.jobId != r.jobId
        {
          BrokerRestarts.NextApplies(b, s);
          PreflightOrigin(b, s, t, b'.threads[t].r);
          PendingIsThere(b.mem, r);
        }
      } else {
        StaysSettled(b, s, r);
      }
    }
  }

  lemma PendingIsThere(j: Journal, r: ActionRequest)
    requires Pending(j, r)
    ensures r.jobId in j.attempts
  {
  }

  lemma RestartBars(b: Broker, s: Step, r: ActionRequest)
    requires BrokerAuthority.AuthorityInv(b) && Enabled(b, s) && !Section(s) && Barred(b, r)
    ensures Barred(Apply(b, s), r)
  {
    hide Enter, Resume, TailSection, TimeoutSection, AdmitExisting, Submit, Query, BeginFinish, Recheck, Commit,
        SnapshotObserved, SnapshotSaved, Pending;
    RestartOrigin(b, s);
  }

  /** While a request is barred, no step carries it out. */
  lemma BarredIsSilent(b: Broker, s: Step, r: ActionRequest)
    requires BrokerOnce.Inv(b) && BrokerAuthority.AuthorityInv(b) && Enabled(b, s) && Section(s) && Barred(b, r)
        && r.action != Stop
    requires |Apply(b, s).acts| > |b.acts|
    ensures !ActsFor(Apply(b, s).acts[|b.acts|], r)
  {
    hide Apply, Enabled, BrokerAuthority.AuthorityInv, ShapedJournal;
    if ActsFor(Apply(b, s).acts[|b.acts|], r) {
      EffectOrigin(b, s, r);
      StepCareful(b, s);
      TimeMoves(b, s);
    }
  }

  lemma {:induction false} BarredForever(b: Broker, steps: seq<Step>, r: ActionRequest)
    requires BrokerOnce.Inv(b) && BrokerAuthority.AuthorityInv(b) && Barred(b, r) && r.action != Stop && r.jobId != ""
    ensures Barred(Run(b, steps), r)
    ensures forall i :: |b.acts| <= i < |Run(b, steps).acts| ==> !ActsFor(Run(b, steps).acts[i], r)
    decreases |steps|
  {
    hide BrokerOnce.Inv, BrokerAuthority.AuthorityInv, Barred, Next, Run, ActsFor, Apply, Enabled;
    BrokerRestarts.RunNone(b);
    if steps != [] {
      var front, s := steps[..|steps| - 1], steps[|steps| - 1];
      var before := Run(b, front);
      BarredForever(b, front, r);
      BrokerRestarts.RunSnoc(b, steps);
      BrokerOnce.RunKeepsInv(b, front);
      BrokerAuthority.RunKeepsAuthority(b, front);
      NextBars(before, s, r);
      BrokerRestarts.ActsGrowByOne(before, s);
      forall i | |b.acts| <= i < |Run(b, steps).acts|
        ensures !ActsFor(Run(b, steps).acts[i], r)
      {
        if i < |before.acts| {
          assert before.acts[i] == Run(b, steps).acts[i];
        } else {
          BrokerRestarts.NextApplies(before, s);
          BarredIsSilent(before, s, r);
        }
      }
    }
  }

  lemma NextBars(b: Broker, s: Step, r: ActionRequest)
    requires BrokerOnce.Inv(b) && BrokerAuthority.AuthorityInv(b) && Barred(b, r) && r.jobId != ""
    ensures Barred(Next(b, s), r)
  {
    hide BrokerOnce.Inv, BrokerAuthority.AuthorityInv, Barred, Apply, Enabled;
    if Enabled(b, s) {
      if Section(s) {
        SectionBars(b, s, r);
      } else {
        RestartBars(b, s, r);
      }
    }
  }

  // ---------------------------------------------------------------- the stop of a recorded request

  /** The admitted stop bars a request that is on record. */
  lemma StopBars(b: Broker, stop: ActionRequest, bootId: string, e: EnterInputs, t: nat, r: ActionRequest)
    requires BrokerOnce.Inv(b) && BrokerAuthority.AuthorityInv(b) && StopsUnder(b, stop, bootId, e, t, r)
        && r.jobId != ""
    requires Recorded(b.mem, r) && Recorded(b.disk, r) && (Pending(b.mem, r) ==> r.action == Start)
    ensures Barred(Next(b, StepEnter(stop, bootId, e)), r)
  {
    hide Apply, Enabled, StoppedProfile, ShapedJournal, Preflights, BrokerAuthority.Authorized;
    var s := StepEnter(stop, bootId, e);
    StopIsStop(b, stop, e);
    TimeMoves(b, s);
    if r.deadline > Apply(b, s).now {
      assert ShapedJournal(b.mem);
      OthersRemain(b, s, r);
      if Pending(b.mem, r) {
        PendingStopped(b, stop, bootId, e, t, r);
      } else {
        StaysSettled(b, s, r);
      }
    }
  }

  lemma PendingStopped(b: Broker, stop: ActionRequest, bootId: string, e: EnterInputs, t: nat, r: ActionRequest)
    requires ShapedJournal(b.mem) && BrokerAuthority.AuthorityInv(b) && StopsUnder(b, stop, bootId, e, t, r)
    requires Recorded(b.mem, r) && Pending(b.mem, r) && r.action == Start
    ensures !Pending(Apply(b, StepEnter(stop, bootId, e)).mem, r)
  {
    hide Enter, StoppedProfile, ShapedJournal, BrokerAuthority.Authorized;
    ShapedAt(b.mem, r.jobId);
    FoundProfileId(b.policy.profiles, r.params.profileId);
    assert WaitsOn(b.mem, r.jobId, b.threads[t].p.id);
    StopCancelsWaiting(b, stop, bootId, e, r.jobId);
  }

  lemma FoundProfileId(profiles: seq<Profile>, id: ProfileId)
    ensures FindProfile(profiles, id).Some? ==> FindProfile(profiles, id).value.id == id
  {
  }

  /** A request that is on record in memory and in the file when a stop is admitted over its preflight is never
      carried out, neither by the calls in preflight nor by any later delivery, in any continuation with crashes and
      failed writes. */
  lemma RecordedNeverActs(policy: Policy, now: Time, before: seq<Step>, stop: ActionRequest, bootId: string,
                          e: EnterInputs,
                          t: nat, r: ActionRequest, after: seq<Step>)
    requires var b := Run(Initial(policy, now), before);
             && StopsUnder(b, stop, bootId, e, t, r)
             && Recorded(b.mem, r) && Recorded(b.disk, r) && (Pending(b.mem, r) ==> r.action == Start)
    ensures var b := Run(Initial(policy, now), before); var end := Run(Next(b, StepEnter(stop, bootId, e)), after);
            forall i :: |b.acts| <= i < |end.acts| ==> !ActsFor(end.acts[i], r)
  {
    hide BrokerOnce.Inv, BrokerAuthority.AuthorityInv, Run, Initial, Next, StoppedProfile, TokensBehind, Enabled,
        OnlyReentries, ActsFor, Barred, Recorded, Pending, Preflights;
    var b, s := Run(Initial(policy, now), before), StepEnter(stop, bootId, e);
    Reachable(policy, now, before);
    PreflightIsNoStop(b, t, r);
    StopBars(b, stop, bootId, e, t, r);
    BrokerOnce.NextKeepsInv(b, s);
    BrokerAuthority.NextKeepsAuthority(b, s);
    var stopped := Next(b, s);
    BarredForever(stopped, after, r);
    StopDominatesRequest(policy, now, before, stop, bootId, e, t, r, after);
    BrokerRestarts.RunActsGrow(stopped, after);
    var end := Run(stopped, after);
    assert forall i :: |b.acts| <= i < |stopped.acts| ==> end.acts[i] == stopped.acts[i];
  }

  // ---------------------------------------------------------------- starts

  /** The job id of `r` stands for `r` alone. */
  predicate OwnId(steps: seq<Step>, r: ActionRequest) {
    forall i :: 0 <= i < |steps| && steps[i].StepEnter? && steps[i].r.jobId == r.jobId ==> steps[i].r == r
  }

  ghost predicate OwnPreflights(b: Broker, r: ActionRequest) {
    forall t :: t in b.threads && b.threads[t].InPreflight? && b.threads[t].r.jobId == r.jobId ==> b.threads[t].r == r
  }

  /** At most one call is in preflight for start `r`, and then `r` is on record; or its lease is over. */
  ghost predicate Noted(b: Broker, r: ActionRequest) {
    || r.deadline <= b.now
    || (&& (forall t, u :: Preflights(b, t, r) && Preflights(b, u, r) ==> t == u)
        && (forall t :: Preflights(b, t, r) ==> Recorded(b.mem, r) && Recorded(b.disk, r)))
  }

  lemma NextOwnPreflights(b: Broker, s: Step, r: ActionRequest)
    requires BrokerOnce.Inv(b) && BrokerAuthority.AuthorityInv(b) && OwnPreflights(b, r) && OwnId([s], r)
    ensures OwnPreflights(Next(b, s), r)
  {
    hide BrokerOnce.Inv, BrokerAuthority.AuthorityInv, Next, Enabled;
    var b' := Next(b, s);
    forall t | t in b'.threads && b'.threads[t].InPreflight? && b'.threads[t].r.jobId == r.jobId
      ensures b'.threads[t].r == r
    {
      PreflightOrigin(b, s, t, b'.threads[t].r);
      assert [s][0] == s;
    }
  }

  /** The only preflight of a start comes back: none is left. */
  lemma ResumedIsGone(b: Broker, s: Step, r: ActionRequest, t: nat)
    requires BrokerOnce.Inv(b) && BrokerAuthority.AuthorityInv(b) && Enabled(b, s) && s.StepResume?
        && Preflights(b, s.t, r)
    requires forall t, u :: Preflights(b, t, r) && Preflights(b, u, r) ==> t == u
    ensures !Preflights(Apply(b, s), t, r)
  {
    hide Apply, ShapedJournal, BrokerAuthority.AuthorityInv;
    if Preflights(Apply(b, s), t, r) {
      BrokerRestarts.NextApplies(b, s);
      PreflightOrigin(b, s, t, r);
      BrokerAuthority.OwnPreflight(b, s);
    }
  }

  /** A start that begins its preflight is on record. */
  lemma BegunIsRecorded(b: Broker, s: Step, r: ActionRequest)
    requires BrokerOnce.Inv(b) && Enabled(b, s) && s.StepEnter? && s.r == r && r.action == Start
        && Preflights(Apply(b, s), b.nextThread, r)
    ensures Recorded(Apply(b, s).mem, r) && Recorded(Apply(b, s).disk, r)
  {
    hide Enter;
    EnterUnrecorded(b, r, s.bootId, s.enter);
  }

  lemma HeldRemains(b: Broker, s: Step, r: ActionRequest, t: nat)
    requires BrokerOnce.Inv(b) && BrokerAuthority.AuthorityInv(b) && Enabled(b, s) && Section(s) && OwnPreflights(b, r)
    requires Noted(b, r) && b.now < r.deadline && r.deadline > Apply(b, s).now && r.jobId != ""
    requires Preflights(b, t, r) && Preflights(Apply(b, s), t, r)
    ensures Recorded(Apply(b, s).mem, r) && Recorded(Apply(b, s).disk, r)
  {
    hide Apply, Enabled, Recorded, ShapedJournal, BrokerAuthority.AuthorityInv;
    assert ShapedJournal(b.mem);
    if RequestOf(b, s).jobId != r.jobId {
      OthersRemain(b, s, r);
    } else if s.StepResume? {
      ResumedRequest(b, s, r);
      ResumedIsGone(b, s, r, t);
    } else {
      OwnKeeps(b, s, r);
    }
  }

  lemma ResumedRequest(b: Broker, s: Step, r: ActionRequest)
    requires Enabled(b, s) && s.StepResume? && OwnPreflights(b, r) && RequestOf(b, s).jobId == r.jobId
    ensures Preflights(b, s.t, r)
  {
  }

  lemma SectionNotes(b: Broker, s: Step, r: ActionRequest)
    requires BrokerOnce.Inv(b) && BrokerAuthority.AuthorityInv(b) && Enabled(b, s) && Section(s) && OwnPreflights(b, r)
    requires Noted(b, r) && r.action == Start && r.jobId != ""
    ensures Noted(Apply(b, s), r)
  {
    hide Apply, Enabled, Recorded, Preflights, BrokerOnce.Inv, BrokerAuthority.AuthorityInv, OwnPreflights;
    TimeMoves(b, s);
    var b' := Apply(b, s);
    BrokerRestarts.NextApplies(b, s);
    if r.deadline > b'.now {
      forall t, u | Preflights(b', t, r) && Preflights(b', u, r)
        ensures t == u
      {
        PreflightOrigin(b, s, t, r);
        PreflightOrigin(b, s, u, r);
        if Preflights(b, t, r) || Preflights(b, u, r) {
          RecordedIsThere(b.mem, r);
        }
      }
      forall t | Preflights(b', t, r)
        ensures Recorded(b'.mem, r) && Recorded(b'.disk, r)
      {
        PreflightOrigin(b, s, t, r);
        if Preflights(b, t, r) {
          HeldRemains(b, s, r, t);
        } else {
          BegunIsRecorded(b, s, r);
        }
      }
    }
  }

  lemma RecordedIsThere(j: Journal, r: ActionRequest)
    requires Recorded(j, r)
    ensures r.jobId in j.attempts
  {
  }

  lemma NextNotes(b: Broker, s: Step, r: ActionRequest)
    requires BrokerOnce.Inv(b) && BrokerAuthority.AuthorityInv(b) && OwnPreflights(b, r) && Noted(b, r)
        && r.action == Start && r.jobId != ""
    ensures Noted(Next(b, s), r)
  {
    hide BrokerOnce.Inv, BrokerAuthority.AuthorityInv, OwnPreflights, Apply, Enabled, Recorded;
    if Enabled(b, s) {
      if Section(s) {
        SectionNotes(b, s, r);
      } else {
        RestartOrigin(b, s);
      }
    }
  }

  lemma {:induction false} RunNotes(b: Broker, steps: seq<Step>, r: ActionRequest)
    requires BrokerOnce.Inv(b) && BrokerAuthority.AuthorityInv(b) && OwnPreflights(b, r) && Noted(b, r)
        && r.action == Start && r.jobId != "" && OwnId(steps, r)
    ensures OwnPreflights(Run(b, steps), r) && Noted(Run(b, steps), r)
    decreases |steps|
  {
    hide BrokerOnce.Inv, BrokerAuthority.AuthorityInv, OwnPreflights, Noted, Next;
    if steps != [] {
      var front, s := steps[..|steps| - 1], steps[|steps| - 1];
      RunNotes(b, front, r);
      BrokerOnce.RunKeepsInv(b, front);
      BrokerAuthority.RunKeepsAuthority(b, front);
      assert OwnId([s], r);
      NextOwnPreflights(Run(b, front), s, r);
      NextNotes(Run(b, front), s, r);
    }
  }

  /** Over every run, a start in preflight is on record in memory and in the file, or its lease is over. */
  lemma StartIsRecorded(policy: Policy, now: Time, steps: seq<Step>, t: nat, r: ActionRequest)
    requires OwnId(steps, r) && r.action == Start && Preflights(Run(Initial(policy, now), steps), t, r)
    ensures var b := Run(Initial(policy, now), steps);
            r.deadline <= b.now || (Recorded(b.mem, r) && Recorded(b.disk, r))
  {
    hide BrokerOnce.Inv, BrokerAuthority.AuthorityInv, Run, Recorded;
    BrokerAuthority.InitiallyAuthorized(policy, now);
    Reachable(policy, now, steps);
    PreflightIsNoStop(Run(Initial(policy, now), steps), t, r);
    RunNotes(Initial(policy, now), steps, r);
  }

  /** A start whose preflight an admitted stop found is never carried out: not by the call, not by what it goes on
      as, and not by any later delivery, whatever follows. */
  lemma StopDominatesStart(policy: Policy, now: Time, before: seq<Step>, stop: ActionRequest, bootId: string,
                           e: EnterInputs,
                           t: nat, r: ActionRequest, after: seq<Step>)
    requires StopsUnder(Run(Initial(policy, now), before), stop, bootId, e, t, r) && OwnId(before, r)
        && r.action == Start
    ensures var b := Run(Initial(policy, now), before); var end := Run(Next(b, StepEnter(stop, bootId, e)), after);
            forall i :: |b.acts| <= i < |end.acts| ==> !ActsFor(end.acts[i], r)
  {
    hide BrokerOnce.Inv, BrokerAuthority.AuthorityInv, Run, Initial, Next, StoppedProfile, TokensBehind, Enabled,
        OnlyReentries, ActsFor, Recorded, Pending, Preflights;
    var b, s := Run(Initial(policy, now), before), StepEnter(stop, bootId, e);
    StartIsRecorded(policy, now, before, t, r);
    if r.deadline <= b.now {
      Reachable(policy, now, before);
      PreflightIsNoStop(b, t, r);
      BarredForever(b, [s] + after, r);
      SplitRun(b, s, after);
    } else {
      RecordedNeverActs(policy, now, before, stop, bootId, e, t, r, after);
    }
  }

  lemma {:induction false} SplitRun(b: Broker, s: Step, steps: seq<Step>)
    ensures Run(b, [s] + steps) == Run(Next(b, s), steps)
    decreases |steps|
  {
    hide Next;
    if steps == [] {
      assert [s] + steps == [s] && [s][..0] == [];
    } else {
      var n := |steps| - 1;
      assert ([s] + steps)[..n + 1] == [s] + steps[..n] && ([s] + steps)[n + 1] == steps[n];
      SplitRun(b, s, steps[..n]);
    }
  }
}
