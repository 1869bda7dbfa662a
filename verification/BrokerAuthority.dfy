/**
  Authority of effects: every supervisor call is made under the current epoch,
  session, profile revision, generation and definition, inside its lease, and
  after the attempt is durable; a linked start additionally finds its parent
  restart stopped and verified at most 60 seconds before.
*/
module BrokerAuthority {
  import opened SparkTypes
  import opened BrokerRules
  import opened Broker
  import opened BrokerJournal
  import opened BrokerSections
  import BrokerOnce

  /** The request fits the journal, policy and session it was validated against. */
  predicate Validated(j: Journal, policy: Policy, session: string, r: ActionRequest, p: Profile, at: Time) {
    && policy.enabled && FindProfile(policy.profiles, r.params.profileId) == Some(p) && !p.observationOnly
        && p.kind != ConfiguredCatalog
    && r.params.controlEpoch == j.epoch
    && r.params.expectedAgentSession == SessionFor(j, session, r) && r.params.expectedAgentSession != ""
    && r.params.profileRevision == p.revision
    && r.params.expectedGeneration == RuntimeOf(j, p.id).generation
    && LeaseValid(r, at)
    && if r.action == Start && r.parentJobId.Some? then
         ParentAuthorizes(j, r, p) && ParentFresh(j.attempts[r.parentJobId.value], at)
       else r.action in p.allowed
  }

  /** The restart whose linked start was just called. */
  predicate ParentAdvanced(j: Journal, r: ActionRequest, p: Profile, at: Time) {
    && r.parentJobId.Some? && r.parentJobId.value in j.attempts
    && var parent := j.attempts[r.parentJobId.value];
       && parent.stage == StartAttempted && parent.request.action == Restart
       && parent.request.operationId == r.operationId && parent.request.params.profileId == p.id
       && ParentFresh(parent, at)
  }

  /** What holds at the moment of a supervisor call. */
  predicate Authorized(e: Act)
    requires e.Effect?
  {
    var r, p, j := e.request, e.profile, e.journal;
    && e.policy.enabled && FindProfile(e.policy.profiles, r.params.profileId) == Some(p) && !p.observationOnly
        && p.kind != ConfiguredCatalog
    && e.durable == j
    && r.jobId in j.attempts && j.attempts[r.jobId].digest == Some(r) && j.attempts[r.jobId].stage == EffectAttempted
    && r.params.controlEpoch == j.epoch
    && r.params.expectedAgentSession == SessionFor(j, e.session, r) && r.params.expectedAgentSession != ""
    && r.params.profileRevision == p.revision
    && r.params.expectedGeneration == RuntimeOf(j, p.id).generation
    && e.definition == Some(p.definitionHash)
    && e.validatedAt <= e.at < r.deadline <= r.issuedAt + DISPATCH_LEASE
    && e.action == SupervisorAction(r.action)
    && if r.action == Start && r.parentJobId.Some? then ParentAdvanced(j, r, p, e.validatedAt) && Restart in p.allowed
        else r.action in p.allowed
  }

  ghost predicate AllAuthorized(acts: seq<Act>) {
    forall i :: 0 <= i < |acts| && acts[i].Effect? ==> Authorized(acts[i])
  }

  /** A call in preflight works on a profile of the current policy. */
  ghost predicate PreflightsOk(b: Broker) {
    forall t :: t in b.threads && b.threads[t].InPreflight? ==>
        FindProfile(b.policy.profiles, b.threads[t].r.params.profileId) == Some(b.threads[t].p)
  }

  ghost predicate AuthorityInv(b: Broker) {
    AllAuthorized(b.acts) && (b.running ==> PreflightsOk(b)) && (!b.running ==> b.threads == map[])
  }

  lemma ValidateGives(j: Journal, policy: Policy, session: string, r: ActionRequest, p: Profile, i: Instance, at: Time)
    requires Validate(j, policy, session, r, p, i, at).1.None?
        && FindProfile(policy.profiles, r.params.profileId) == Some(p)
    ensures Validated(Validate(j, policy, session, r, p, i, at).0, policy, session, r, p, at)
  {
  }

  /** Admission publishes a journal that still fits the request. */
  lemma AdmittedAuthorized(b: Broker, t: nat, r: ActionRequest, p: Profile, i: Instance, validatedAt: Time,
                           f: FinalInputs)
    requires Validated(b.mem, b.policy, b.session, r, p, validatedAt) && Unrecorded(b.mem, r)
    requires r.parentJobId.Some? ==> ParentStopped(b.mem, r, p)
    requires validatedAt <= f.effectAt < r.deadline && f.definition == Some(p.definitionHash)
    ensures var j := AdmittedJournal(b, r, p, i, f.admitAt);
            Authorized(Effect(r, f.effectAt, t, SupervisorAction(r.action), p, validatedAt, f.definition, b.policy,
                b.session, j, j))
  {
    RecordKept(b, r, p, i, f.admitAt);
    AdmittedRest(b, r, p, i, f.admitAt);
  }

  lemma AdmittedRest(b: Broker, r: ActionRequest, p: Profile, i: Instance, at: Time)
    requires r.parentJobId.Some? ==> ParentStopped(b.mem, r, p) && r.parentJobId.value != r.jobId
    ensures var j := AdmittedJournal(b, r, p, i, at);
            && j.epoch == b.mem.epoch && RuntimeOf(j, p.id).generation == RuntimeOf(b.mem, p.id).generation
            && (r.parentJobId.Some? ==>
                  && r.parentJobId.value in j.attempts
                  && var parent, was := j.attempts[r.parentJobId.value], b.mem.attempts[r.parentJobId.value];
                     parent.stage == StartAttempted && parent.request == was.request
                         && parent.receipt.verifiedAt == was.receipt.verifiedAt)
  {
  }

  /** The acts after a section: none new, or one authorized supervisor call by this very call. */
  ghost predicate ActsAuthorized(b: Broker, b': Broker, t: nat, r: ActionRequest) {
    || b'.acts == b.acts
    || (|b'.acts| == |b.acts| + 1 && b'.acts[..|b.acts|] == b.acts && b'.acts[|b.acts|].Effect?
        && b'.acts[|b.acts|].thread == t && b'.acts[|b.acts|].request == r && Authorized(b'.acts[|b.acts|]))
  }

  lemma PublishedActs(saved: Broker, before: Journal, t: nat, r: ActionRequest, p: Profile, i: Instance, a: Attempt,
                      validatedAt: Time, f: FinalInputs)
    ensures var o := Published(saved, before, t, r, p, i, a, validatedAt, f).b;
            o.acts == saved.acts ||
            (f.firstSave == Synced && f.effectAt < r.deadline &&
             o.acts == saved.acts + [Effect(r, f.effectAt, t, SupervisorAction(r.action), p, validatedAt, f.definition,
                 saved.policy, saved.session, saved.mem, saved.disk)])
  {
    hide Withdraw, CloseUnused, Unconfirmed, Confirmed;
  }

  lemma FinalAuthorized(b: Broker, t: nat, r: ActionRequest, p: Profile, i: Instance, validatedAt: Time, f: FinalInputs)
    requires Validated(b.mem, b.policy, b.session, r, p, validatedAt) && Unrecorded(b.mem, r)
        && OrderedFinal(validatedAt, f)
    ensures ActsAuthorized(b, FinalSection(b, t, r, p, i, validatedAt, f).b, t, r)
  {
    hide AdmittedJournal, Published, RejectPreflight, Validated, Authorized, EffectAttempt;
    if f.definition == Some(p.definitionHash) && f.admitAt < r.deadline
        && (r.parentJobId.Some? ==> ParentStopped(b.mem, r, p)) {
      var saved := Saved(b.(mem := AdmittedJournal(b, r, p, i, f.admitAt)), f.firstSave);
      PublishedActs(saved, b.mem, t, r, p, i, EffectAttempt(b, r, p, i, f.admitAt), validatedAt, f);
      if f.effectAt < r.deadline {
        AdmittedAuthorized(b, t, r, p, i, validatedAt, f);
      }
    }
  }

  /** Admitting a stop cancels records but keeps epoch and generation. */
  lemma StopAdmissionValidated(b: Broker, r: ActionRequest, p: Profile, at: Time)
    requires Validated(b.mem, b.policy, b.session, r, p, at) && r.action == Stop
    ensures Validated(StopAdmission(b, p.id).mem, b.policy, b.session, r, p, at)
  {
  }

  lemma DispatchAuthorized(b: Broker, t: nat, r: ActionRequest, p: Profile, i: Instance, e: EnterInputs)
    requires Validated(b.mem, b.policy, b.session, r, p, e.validateAt) && r.jobId !in b.mem.attempts
        && OrderedFinal(e.validateAt, e.final)
    ensures ActsAuthorized(b, Dispatch(b, t, r, p, i, e).b, t, r)
  {
    hide StopAdmission, RecordSatisfied, RecordStarting, BeginPreflight, FinalSection, Validated, Authorized;
    if r.action == Stop {
      StopAdmissionValidated(b, r, p, e.validateAt);
      StopAdmissionUnrecorded(b, p.id, r);
      FinalAuthorized(StopAdmission(b, p.id), t, r, p, i, e.validateAt, e.final);
    }
  }

  lemma EnterDirectAuthorized(b: Broker, t: nat, r: ActionRequest, p: Profile, e: EnterInputs)
    requires FindProfile(b.policy.profiles, r.params.profileId) == Some(p) && OrderedFinal(e.validateAt, e.final)
    ensures ActsAuthorized(b, EnterDirect(b, t, r, p, e).b, t, r)
  {
    hide Dispatch, Validate, Validated, Authorized, Prune, Duplicate;
    if r.jobId !in b.mem.attempts && e.probe.Probed? {
      PruneShrinks(b.mem, e.lookAt);
      var pruned := b.(mem := Prune(b.mem, e.lookAt));
      var validated := Validate(pruned.mem, b.policy, b.session, r, p, e.probe.instance, e.validateAt);
      ValidateQuiet(pruned.mem, b.policy, b.session, r, p, e.probe.instance, e.validateAt);
      if validated.1.None? {
        ValidateGives(pruned.mem, b.policy, b.session, r, p, e.probe.instance, e.validateAt);
        DispatchAuthorized(pruned.(mem := validated.0), t, r, p, e.probe.instance, e);
      }
    }
  }

  lemma PruneShrinks(j: Journal, now: Time)
    ensures Prune(j, now).attempts.Keys <= j.attempts.Keys
  {
  }

  /** The walk over the other profiles leaves this profile's generation alone. */
  lemma PreflightOthersLeaves(j: Journal, others: seq<Profile>, p: Profile, replace: bool, need: nat, available: nat,
                              probes: map<ProfileId, Probe>, now: Time)
    ensures var walked := PreflightOthers(j, others, p, replace, need, available, probes, now).0;
            walked.epoch == j.epoch && RuntimeOf(walked, p.id) == RuntimeOf(j, p.id) && walked.attempts == j.attempts
    decreases |others|
  {
  }

  lemma ResumeCheckedAuthorized(b: Broker, t: nat, r: ActionRequest, p: Profile, i: Instance, x: ResumeInputs)
    requires FindProfile(b.policy.profiles, r.params.profileId) == Some(p) && OrderedFinal(x.validateAt, x.final)
        && Unrecorded(b.mem, r)
    ensures ActsAuthorized(b, ResumeChecked(b, t, r, p, i, x).b, t, r)
  {
    hide FinalSection, RejectPreflight, Authorized, PreflightOthers, Validate;
    var validated := Validate(b.mem, b.policy, b.session, r, p, i, x.validateAt);
    ValidateQuiet(b.mem, b.policy, b.session, r, p, i, x.validateAt);
    if validated.1.None? {
      ValidateGives(b.mem, b.policy, b.session, r, p, i, x.validateAt);
      PreflightOthersLeaves(validated.0, b.policy.profiles, p, r.action == Restart, MemoryNeed(p), x.available,
          x.probes, x.validateAt);
      var walked := Preflight(validated.0, b.policy, p, r.action == Restart, x.available, x.portFree, x.probes,
          x.validateAt);
      if walked.1.None? {
        FinalAuthorized(b.(mem := walked.0), t, r, p, i, x.validateAt, x.final);
      }
    }
  }

  lemma ResumeAuthorized(b: Broker, t: nat, th: Thread, x: ResumeInputs)
    requires th.InPreflight? && FindProfile(b.policy.profiles, th.r.params.profileId) == Some(th.p)
        && OrderedFinal(x.validateAt, x.final)
    ensures ActsAuthorized(b, Resume(b, t, th, x).b, t, th.r)
  {
    hide ResumeChecked, RejectPreflight, Authorized;
    var back := Unregister(EndThread(b, t), t, th.p.id);
    if Unrecorded(back.mem, th.r) && x.probe.Probed? {
      ResumeCheckedAuthorized(back, t, th.r, th.p, x.probe.instance, x);
    }
  }

  /** Only the two sections of Execute call the supervisor, and only with authority. */
  lemma StepAuthorized(b: Broker, s: Step)
    requires AuthorityInv(b) && Enabled(b, s) && Section(s) && !s.StepSubmit?
    ensures ActsAuthorized(b, Apply(b, s), CallOf(b, s), RequestOf(b, s))
  {
    hide EnterDirect, Resume, TailSection, TimeoutSection, AdmitExisting, Commit, Authorized, EnterExisting;
    match s
    case StepEnter(r, bootId, e) =>
      var p := FindProfile(b.policy.profiles, r.params.profileId);
      if p.Some? {
        EnterDirectAuthorized(b.(nextThread := b.nextThread + 1), b.nextThread, r, p.value, e);
      }
    case StepResume(t, x) => ResumeAuthorized(b, t, b.threads[t], x);
    case _ =>
  }

  /** A call enters its preflight with a profile of the policy and the token of that moment. */
  lemma EnterPreflight(b: Broker, r: ActionRequest, bootId: string, e: EnterInputs)
    requires Enabled(b, StepEnter(r, bootId, e)) && b.nextThread !in b.threads
    ensures var b' := Enter(b, r, bootId, e).b; var t := b.nextThread;
            t in b'.threads && b'.threads[t].InPreflight? ==>
              && b'.threads[t].r == r && FindProfile(b.policy.profiles, r.params.profileId) == Some(b'.threads[t].p)
              && b'.threads[t].token == TokenOf(b, b'.threads[t].p.id) && b'.tokens == b.tokens && b'.acts == b.acts
  {
    hide EnterDirect, EnterExisting;
    var numbered := b.(nextThread := b.nextThread + 1);
    var p := FindProfile(b.policy.profiles, r.params.profileId);
    if ValidId(r.jobId) && ValidId(r.operationId) && r.action != OtherAction && p.Some?
        && p.value.kind != ExistingCoordinator {
      EnterDirectThreads(numbered, b.nextThread, r, p.value, e);
    }
  }

  lemma OwnPreflight(b: Broker, s: Step)
    requires ShapedJournal(b.mem) && CallsSane(b) && Enabled(b, s) && Section(s) && !s.StepEnter?
    ensures var b' := Apply(b, s); CallOf(b, s) in b'.threads ==> !b'.threads[CallOf(b, s)].InPreflight?
  {
    hide Resume, TailSection, TimeoutSection, AdmitExisting, Commit, KeepsRecords, ShapedJournal, Enter, Crashed,
        Opened;
    match s
    case StepResume(t, x) => ResumeStep(b, t, x);
    case StepAdmitExisting(t, snap, at, w) => AdmitExistingStep(b, t, snap, at, w);
    case StepCommit(t, x) => CommitStep(b, t, x);
    case _ =>
  }

  lemma SectionKeepsPreflights(b: Broker, s: Step)
    requires BrokerOnce.Inv(b) && AuthorityInv(b) && b.running && Enabled(b, s) && Section(s)
    ensures PreflightsOk(Apply(b, s))
  {
    hide Enabled, ShapedJournal, Enter, Resume, TailSection, TimeoutSection, AdmitExisting, Commit;
    var b' := Apply(b, s);
    StepCalls(b, s);
    if s.StepEnter? {
      EnterPreflight(b, s.r, s.bootId, s.enter);
    } else {
      OwnPreflight(b, s);
    }
    forall u | u in b'.threads && b'.threads[u].InPreflight? && u != CallOf(b, s)
      ensures FindProfile(b'.policy.profiles, b'.threads[u].r.params.profileId) == Some(b'.threads[u].p)
    {
      BrokerOnce.OtherCallsKept(b, b', CallOf(b, s), u);
    }
  }

  lemma ActsStayAuthorized(b: Broker, b': Broker, t: nat, r: ActionRequest)
    requires AllAuthorized(b.acts) && ActsAuthorized(b, b', t, r)
    ensures AllAuthorized(b'.acts)
  {
    hide Authorized;
    assert forall i :: 0 <= i < |b.acts| && b'.acts != b.acts ==> b'.acts[i] == b'.acts[..|b.acts|][i];
  }

  lemma IdleStep(b: Broker, s: Step)
    requires AuthorityInv(b) && Enabled(b, s) && Section(s) && !b.running
    ensures AuthorityInv(Apply(b, s))
  {
  }

  lemma NextKeepsAuthority(b: Broker, s: Step)
    requires BrokerOnce.Inv(b) && AuthorityInv(b)
    ensures AuthorityInv(Next(b, s))
  {
    hide Enter, Resume, TailSection, TimeoutSection, AdmitExisting, Commit, Authorized, ShapedJournal, CallsSane,
        PreflightsOk;
    if Enabled(b, s) && Section(s) {
      if !b.running {
        IdleStep(b, s);
      } else {
        SectionKeepsPreflights(b, s);
        StepCalls(b, s);
        if !s.StepSubmit? {
          StepAuthorized(b, s);
          ActsStayAuthorized(b, Apply(b, s), CallOf(b, s), RequestOf(b, s));
        }
      }
    } else if Enabled(b, s) {
      RestartKeepsAuthority(b, s);
    }
  }

  lemma RestartKeepsAuthority(b: Broker, s: Step)
    requires AuthorityInv(b) && Enabled(b, s) && !Section(s)
    ensures AuthorityInv(Apply(b, s))
  {
    hide Enter, Resume, TailSection, TimeoutSection, AdmitExisting, Submit, Query, BeginFinish, Recheck, Commit,
        SnapshotObserved, SnapshotSaved;
  }

  lemma {:induction false} RunKeepsAuthority(b: Broker, steps: seq<Step>)
    requires BrokerOnce.Inv(b) && AuthorityInv(b)
    ensures AuthorityInv(Run(b, steps))
    decreases |steps|
  {
    hide BrokerOnce.Inv, AuthorityInv, Next;
    if steps != [] {
      RunKeepsAuthority(b, steps[..|steps| - 1]);
      BrokerOnce.RunKeepsInv(b, steps[..|steps| - 1]);
      NextKeepsAuthority(Run(b, steps[..|steps| - 1]), steps[|steps| - 1]);
    }
  }

  lemma InitiallyAuthorized(policy: Policy, now: Time)
    ensures BrokerOnce.Inv(Initial(policy, now)) && AuthorityInv(Initial(policy, now))
  {
  }

  /** Over every run, every supervisor call was authorized at the moment it was made. */
  lemma EffectsAreAuthorized(policy: Policy, now: Time, steps: seq<Step>)
    ensures AllAuthorized(Run(Initial(policy, now), steps).acts)
  {
    hide Run, Initial, BrokerOnce.Inv, Authorized;
    InitiallyAuthorized(policy, now);
    RunKeepsAuthority(Initial(policy, now), steps);
  }
}
