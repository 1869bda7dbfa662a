/**
  Stops dominate: once the direct broker admits a stop of a profile, no call that
  was still in preflight on that profile ever reaches the supervisor, whatever
  happens afterwards (`BrokerReentry` says when its request still can); and every
  record that waited on the profile is closed as cancelled and stays so, with one
  exact exception.
*/
module BrokerStops {
  import opened SparkTypes
  import opened BrokerRules
  import opened Broker
  import opened BrokerJournal
  import opened BrokerSections
  import BrokerOnce
  import BrokerAuthority
  import opened BrokerRecords

  /** The profile a stop is admitted for when request `r` enters, if it is. */
  function StoppedProfile(b: Broker, r: ActionRequest, e: EnterInputs): Option<ProfileId> {
    var p := FindProfile(b.policy.profiles, r.params.profileId);
    if !ValidId(r.jobId) || !ValidId(r.operationId) || r.action != Stop || p.None?
        || p.value.kind == ExistingCoordinator then None
    else if r.jobId in b.mem.attempts || |Prune(b.mem, e.lookAt).attempts| >= 2048 || e.probe.ProbeFailed? then None
    else if Validate(Prune(b.mem, e.lookAt), b.policy, b.session, r, p.value, e.probe.instance, e.validateAt).1.Some?
        then None
    else if e.definition != Some(p.value.definitionHash) then None
    else Some(p.value.id)
  }

  lemma DispatchTokens(b: Broker, t: nat, r: ActionRequest, p: Profile, i: Instance, e: EnterInputs)
    ensures Dispatch(b, t, r, p, i, e).b.tokens ==
            if r.action == Stop && e.definition == Some(p.definitionHash) then b.tokens[p.id := TokenOf(b, p.id) + 1]
                else b.tokens
  {
  }

  /** Entering a request moves exactly the token of the profile it stops. */
  lemma EnterTokens(b: Broker, r: ActionRequest, bootId: string, e: EnterInputs, id: ProfileId)
    ensures TokenOf(Enter(b, r, bootId, e).b, id) == TokenOf(b, id) + (if StoppedProfile(b, r, e) == Some(id) then 1
        else 0)
  {
    hide Validate, Prune, Dispatch;
    var p := FindProfile(b.policy.profiles, r.params.profileId);
    if p.Some? && r.jobId !in b.mem.attempts && e.probe.Probed? {
      var pruned := b.(nextThread := b.nextThread + 1, mem := Prune(b.mem, e.lookAt));
      var checked := pruned.(mem := Validate(pruned.mem, b.policy, b.session, r, p.value, e.probe.instance,
          e.validateAt).0);
      DispatchTokens(checked, b.nextThread, r, p.value, e.probe.instance, e);
    }
  }

  lemma OtherTokens(b: Broker, s: Step)
    requires Enabled(b, s) && Section(s) && !s.StepEnter?
    ensures Apply(b, s).tokens == b.tokens
  {
    hide Resume, Enter, Crashed, Opened, TailSection, TimeoutSection, AdmitExisting, Commit;
    if s.StepResume? {
      ResumeThreads(b, s.t, b.threads[s.t], s.resume);
    }
  }

  /** Call `t` was in preflight when a stop of its profile was admitted, or is over. */
  predicate Doomed(b: Broker, t: nat) {
    t < b.nextThread && (t in b.threads ==>
        b.threads[t].InPreflight? && b.threads[t].token < TokenOf(b, b.threads[t].p.id))
  }

  /** None of the acts from index `n` on is a supervisor call of call `t`. */
  ghost predicate Silent(acts: seq<Act>, n: nat, t: nat) {
    forall i :: n <= i < |acts| && acts[i].Effect? ==> acts[i].thread != t
  }

  /** A doomed call coming back from its preflight is cancelled instead of carried out. */
  lemma DoomedResumes(b: Broker, t: nat, x: ResumeInputs)
    requires t in b.threads && b.threads[t].InPreflight? && Doomed(b, t)
    ensures var b' := Resume(b, t, b.threads[t], x).b;
            b'.acts == b.acts && t !in b'.threads && b'.nextThread == b.nextThread
  {
    hide ResumeChecked, RejectPreflight;
  }

  lemma OtherCallStep(b: Broker, s: Step, t: nat)
    requires BrokerOnce.Inv(b) && BrokerAuthority.AuthorityInv(b) && Enabled(b, s) && Section(s) && CallOf(b, s) != t
        && Doomed(b, t)
    ensures Doomed(Apply(b, s), t) && Silent(Apply(b, s).acts, |b.acts|, t)
  {
    hide Enter, Resume, TailSection, TimeoutSection, AdmitExisting, Commit, ShapedJournal, BrokerAuthority.Authorized,
        Submit, Query, BeginFinish, Recheck, SnapshotObserved, SnapshotSaved, Crashed, Opened;
    var b' := Apply(b, s);
    StepCalls(b, s);
    if t in b'.threads {
      BrokerOnce.OtherCallsKept(b, b', CallOf(b, s), t);
      if s.StepEnter? {
        EnterTokens(b, s.r, s.bootId, s.enter, b.threads[t].p.id);
      } else {
        OtherTokens(b, s);
      }
    }
    if !s.StepSubmit? {
      BrokerAuthority.StepAuthorized(b, s);
    }
  }

  lemma DoomedStays(b: Broker, s: Step, t: nat)
    requires BrokerOnce.Inv(b) && BrokerAuthority.AuthorityInv(b) && Doomed(b, t)
    ensures Doomed(Next(b, s), t) && Silent(Next(b, s).acts, |b.acts|, t) && b.acts <= Next(b, s).acts
  {
    hide BrokerOnce.Inv, BrokerAuthority.AuthorityInv, Resume, Enter;
    ActsGrow(b, s);
    if Enabled(b, s) {
      if Section(s) && CallOf(b, s) == t {
        assert s.StepResume? by { StartersAreNew(b, s, t); }
        DoomedResumes(b, t, s.resume);
      } else if Section(s) {
        OtherCallStep(b, s, t);
      } else {
        RestartDoomed(b, s, t);
      }
    }
  }

  lemma RestartDoomed(b: Broker, s: Step, t: nat)
    requires BrokerAuthority.AuthorityInv(b) && Enabled(b, s) && !Section(s) && Doomed(b, t)
    ensures Doomed(Apply(b, s), t) && Apply(b, s).acts == b.acts
  {
    hide Enter, Resume, TailSection, TimeoutSection, AdmitExisting, Submit, Query, BeginFinish, Recheck, Commit,
        SnapshotObserved, SnapshotSaved;
  }

  lemma StartersAreNew(b: Broker, s: Step, t: nat)
    requires Enabled(b, s) && Section(s) && CallOf(b, s) == t && Doomed(b, t)
    ensures s.StepResume?
  {
  }

  lemma ActsGrow(b: Broker, s: Step)
    requires BrokerOnce.Inv(b)
    ensures b.acts <= Next(b, s).acts
  {
    hide Enter, Resume, TailSection, TimeoutSection, AdmitExisting, Commit, ShapedJournal, KeepsRecords, Query,
        BeginFinish, Recheck, SnapshotObserved, SnapshotSaved;
    if Enabled(b, s) && Section(s) && !s.StepSubmit? {
      StepCareful(b, s);
    }
  }

  lemma {:induction false} DoomedForever(b: Broker, steps: seq<Step>, t: nat)
    requires BrokerOnce.Inv(b) && BrokerAuthority.AuthorityInv(b) && Doomed(b, t)
    ensures Doomed(Run(b, steps), t) && Silent(Run(b, steps).acts, |b.acts|, t) && b.acts <= Run(b, steps).acts
    decreases |steps|
  {
    hide BrokerOnce.Inv, BrokerAuthority.AuthorityInv, Next, Doomed;
    if steps != [] {
      var before := Run(b, steps[..|steps| - 1]);
      DoomedForever(b, steps[..|steps| - 1], t);
      BrokerOnce.RunKeepsInv(b, steps[..|steps| - 1]);
      BrokerAuthority.RunKeepsAuthority(b, steps[..|steps| - 1]);
      DoomedStays(before, steps[|steps| - 1], t);
      var after := Next(before, steps[|steps| - 1]);
      assert forall i :: 0 <= i < |before.acts| ==> after.acts[i] == before.acts[i];
    }
  }

  /** A call in preflight never holds a token from the future. */
  ghost predicate TokensBehind(b: Broker) {
    forall t :: t in b.threads && b.threads[t].InPreflight? ==> b.threads[t].token <= TokenOf(b, b.threads[t].p.id)
  }

  lemma EnterKeepsTokensBehind(b: Broker, s: Step)
    requires BrokerOnce.Inv(b) && TokensBehind(b) && Enabled(b, s) && s.StepEnter?
    ensures TokensBehind(Apply(b, s))
  {
    hide Enter, ShapedJournal;
    var b' := Apply(b, s);
    StepCalls(b, s);
    BrokerAuthority.EnterPreflight(b, s.r, s.bootId, s.enter);
    forall t | t in b'.threads && b'.threads[t].InPreflight? && t != b.nextThread
      ensures b'.threads[t].token <= TokenOf(b', b'.threads[t].p.id)
    {
      BrokerOnce.OtherCallsKept(b, b', b.nextThread, t);
      EnterTokens(b, s.r, s.bootId, s.enter, b.threads[t].p.id);
    }
  }

  lemma OtherKeepsTokensBehind(b: Broker, s: Step)
    requires BrokerOnce.Inv(b) && TokensBehind(b) && Enabled(b, s) && Section(s) && !s.StepEnter?
    ensures TokensBehind(Apply(b, s))
  {
    hide Apply, Enabled, ShapedJournal;
    var b' := Apply(b, s);
    StepCalls(b, s);
    BrokerAuthority.OwnPreflight(b, s);
    OtherTokens(b, s);
    forall t | t in b'.threads && b'.threads[t].InPreflight? && t != CallOf(b, s)
      ensures b'.threads[t].token <= TokenOf(b', b'.threads[t].p.id)
    {
      BrokerOnce.OtherCallsKept(b, b', CallOf(b, s), t);
    }
  }

  lemma RestartKeepsTokensBehind(b: Broker, s: Step)
    requires BrokerAuthority.AuthorityInv(b) && Enabled(b, s) && !Section(s)
    ensures TokensBehind(Apply(b, s))
  {
    hide Enter, Resume, TailSection, TimeoutSection, AdmitExisting, Submit, Query, BeginFinish, Recheck, Commit,
        SnapshotObserved, SnapshotSaved;
  }

  lemma NextKeepsTokensBehind(b: Broker, s: Step)
    requires BrokerOnce.Inv(b) && BrokerAuthority.AuthorityInv(b) && TokensBehind(b)
    ensures TokensBehind(Next(b, s))
  {
    hide Apply, Enabled, BrokerOnce.Inv, BrokerAuthority.AuthorityInv, TokensBehind;
    if Enabled(b, s) {
      if !Section(s) {
        RestartKeepsTokensBehind(b, s);
      } else if s.StepEnter? {
        EnterKeepsTokensBehind(b, s);
      } else {
        OtherKeepsTokensBehind(b, s);
      }
    }
  }

  lemma {:induction false} RunKeepsTokensBehind(b: Broker, steps: seq<Step>)
    requires BrokerOnce.Inv(b) && BrokerAuthority.AuthorityInv(b) && TokensBehind(b)
    ensures TokensBehind(Run(b, steps))
    decreases |steps|
  {
    hide BrokerOnce.Inv, BrokerAuthority.AuthorityInv, Next, TokensBehind;
    if steps != [] {
      RunKeepsTokensBehind(b, steps[..|steps| - 1]);
      BrokerOnce.RunKeepsInv(b, steps[..|steps| - 1]);
      BrokerAuthority.RunKeepsAuthority(b, steps[..|steps| - 1]);
      NextKeepsTokensBehind(Run(b, steps[..|steps| - 1]), steps[|steps| - 1]);
    }
  }

  /** After any run, let a stop of profile `id` be admitted while call `t` is in preflight on `id`. In no
      continuation does call `t` ever reach the supervisor. */
  lemma StopDominates(policy: Policy, now: Time, before: seq<Step>, r: ActionRequest, bootId: string, e: EnterInputs,
                      t: nat, after: seq<Step>)
    requires var b := Run(Initial(policy, now), before);
             && Enabled(b, StepEnter(r, bootId, e))
             && t in b.threads && b.threads[t].InPreflight? && StoppedProfile(b, r, e) == Some(b.threads[t].p.id)
    ensures var b := Run(Initial(policy, now), before);
            Silent(Run(Next(b, StepEnter(r, bootId, e)), after).acts, |b.acts|, t)
  {
    hide BrokerOnce.Inv, BrokerAuthority.AuthorityInv, Enter, Initial, StoppedProfile;
    var b, s := Run(Initial(policy, now), before), StepEnter(r, bootId, e);
    assert TokensBehind(Initial(policy, now)) by { InitiallyBehind(policy, now); }
    BrokerAuthority.InitiallyAuthorized(policy, now);
    BrokerOnce.RunKeepsInv(Initial(policy, now), before);
    BrokerAuthority.RunKeepsAuthority(Initial(policy, now), before);
    RunKeepsTokensBehind(Initial(policy, now), before);
    StopDooms(b, r, bootId, e, t);
    BrokerOnce.NextKeepsInv(b, s);
    BrokerAuthority.NextKeepsAuthority(b, s);
    var b' := Next(b, s);
    DoomedForever(b', after, t);
    var end := Run(b', after);
    assert forall i :: 0 <= i < |b'.acts| ==> end.acts[i] == b'.acts[i];
  }

  lemma InitiallyBehind(policy: Policy, now: Time)
    ensures TokensBehind(Initial(policy, now))
  {
  }

  lemma StopDooms(b: Broker, r: ActionRequest, bootId: string, e: EnterInputs, t: nat)
    requires BrokerOnce.Inv(b) && BrokerAuthority.AuthorityInv(b) && TokensBehind(b)
        && Enabled(b, StepEnter(r, bootId, e))
    requires t in b.threads && b.threads[t].InPreflight? && StoppedProfile(b, r, e) == Some(b.threads[t].p.id)
    ensures var b' := Next(b, StepEnter(r, bootId, e));
            Doomed(b', t) && Silent(b'.acts, |b.acts|, t) && b.acts <= b'.acts
  {
    hide Enter, ShapedJournal, BrokerAuthority.Authorized, BrokerAuthority.PreflightsOk, StoppedProfile;
    var s := StepEnter(r, bootId, e);
    var b' := Apply(b, s);
    StepCalls(b, s);
    EnterTokens(b, r, bootId, e, b.threads[t].p.id);
    if t in b'.threads {
      BrokerOnce.OtherCallsKept(b, b', CallOf(b, s), t);
    }
    BrokerAuthority.StepAuthorized(b, s);
  }

  // ---------------------------------------------------------------- cancelled records

  /** What an admitted stop of profile `id` cancels. */
  predicate WaitsOn(j: Journal, k: JobId, id: ProfileId) {
    && k in j.attempts
    && (CancellablePreflight(j.attempts[k], id) || SupersededParent(j.attempts[k], id)
        || SupersededChild(j.attempts, j.attempts[k], id))
  }

  lemma CancelForStopCancels(j: Journal, id: ProfileId, k: JobId)
    requires WaitsOn(j, k, id)
    ensures var j' := CancelForStop(j, id);
            k in j'.attempts && StopCancelled(j'.attempts[k]) && j'.attempts[k].at == j.attempts[k].at
  {
  }

  lemma PruneKeepsWaiting(j: Journal, now: Time, k: JobId, id: ProfileId)
    requires WaitsOn(j, k, id)
    ensures WaitsOn(Prune(j, now), k, id)
  {
  }

  lemma StopDispatchCancels(b: Broker, t: nat, r: ActionRequest, p: Profile, i: Instance, e: EnterInputs, k: JobId)
    requires r.action == Stop && e.definition == Some(p.definitionHash) && r.jobId !in b.mem.attempts
        && WaitsOn(b.mem, k, p.id)
    ensures var j := Dispatch(b, t, r, p, i, e).b.mem; k in j.attempts && StopCancelled(j.attempts[k])
  {
    hide FinalSection, RecordSatisfied, CancelForStop;
    var admitted := StopAdmission(b, p.id);
    StopAdmissionUnrecorded(b, p.id, r);
    CancelForStopCancels(b.mem, p.id, k);
    var now := admitted.mem.attempts[k].at + DAY;
    if AlreadySatisfied(r, p, i) {
      RecordSatisfiedTidy(admitted, r, p, i, e, k, now);
    } else {
      FinalTidy(admitted, t, r, p, i, e.validateAt, e.final, k, now);
    }
  }

  /** Everything that waited on a profile is cancelled in the step that admits its stop. */
  lemma StopCancelsWaiting(b: Broker, r: ActionRequest, bootId: string, e: EnterInputs, k: JobId)
    requires StoppedProfile(b, r, e).Some? && WaitsOn(b.mem, k, StoppedProfile(b, r, e).value)
    ensures var j := Enter(b, r, bootId, e).b.mem; k in j.attempts && StopCancelled(j.attempts[k])
  {
    hide Validate, Prune, Dispatch, StopCancelled;
    var p := FindProfile(b.policy.profiles, r.params.profileId).value;
    var pruned := b.(nextThread := b.nextThread + 1, mem := Prune(b.mem, e.lookAt));
    PruneKeepsWaiting(b.mem, e.lookAt, k, p.id);
    BrokerAuthority.PruneShrinks(b.mem, e.lookAt);
    ValidateQuiet(pruned.mem, b.policy, b.session, r, p, e.probe.instance, e.validateAt);
    var checked := pruned.(mem := Validate(pruned.mem, b.policy, b.session, r, p, e.probe.instance, e.validateAt).0);
    StopDispatchCancels(checked, b.nextThread, r, p, e.probe.instance, e, k);
  }

  lemma TimeoutOverwrites(b: Broker, s: Step, id: JobId)
    requires Enabled(b, s) && s.StepTimeout? && OwnEnding(b, s, id) && ShapedJournal(b.mem) && id in b.mem.attempts
    ensures var j := Apply(b, s).mem;
            id in j.attempts && j.attempts[id].receipt.stage == StopObservationTimeout && !StopCancelled(j.attempts[id])
  {
    hide Enter, Resume, AdmitExisting, Commit, TailSection;
  }

  /** A cancelled record changes in exactly one way: the expiring stop wait of the very call that owns it replaces
      its receipt.  Otherwise it stays until pruned. */
  lemma CancelledRecordChanges(b: Broker, s: Step, id: JobId)
    requires BrokerOnce.Inv(b) && Enabled(b, s) && Section(s) && id in b.mem.attempts
        && StopCancelled(b.mem.attempts[id])
    ensures var j := Apply(b, s).mem;
            if s.StepTimeout? && OwnEnding(b, s, id) then
              id in j.attempts && j.attempts[id].receipt.stage == StopObservationTimeout
                  && !StopCancelled(j.attempts[id])
            else
              if id in j.attempts then j.attempts[id] == b.mem.attempts[id]
                  else b.mem.attempts[id].at < Apply(b, s).now - DAY
  {
    hide Apply;
    if s.StepTimeout? && OwnEnding(b, s, id) {
      TimeoutOverwrites(b, s, id);
    } else {
      StepTidy(b, s, id);
    }
  }
}
