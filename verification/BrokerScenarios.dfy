/**
  Concrete runs of the direct path that show where a promise stops: a stop wait
  that expires late replaces the receipt of a restart a stop had cancelled, and a
  late tail takes a restart back so that a second linked start can follow.
*/
module BrokerScenarios {
  import opened SparkTypes
  import opened BrokerRules
  import opened Broker
  import BrokerStops
  import BrokerReentry

  const MODEL := Profile("m", Docker, "v1", {Start, Stop, Restart}, false, "d1", "", {}, 0, 0, false, false, false)
  const POLICY := Policy(true, [MODEL])

  const UP := Instance(Running, Plain("c1"), 7, true, false, None)
  const DOWN := Instance(Stopped, Plain("c1"), 0, true, false, None)

  function Request(id: JobId, operation: string, action: Action, generation: int,
                   parent: Option<JobId>): ActionRequest {
    ActionRequest(id, operation, action, Params("m", "v1", generation, "e", "s", true), 1, 100, parent, false)
  }

  const RESTART := Request("r", "o", Restart, 1, None)
  const STOP := Request("x", "q", Stop, 1, None)

  function Ending(effect: Option<Instance>, comesUp: bool): FinalInputs {
    FinalInputs(true, Some("d1"), 1, Synced, 1, effect, comesUp, Synced)
  }

  function Entering(r: ActionRequest, seen: Instance): Step {
    StepEnter(r, "boot", EnterInputs(1, Probed(seen), 1, Some("d1"), Synced, Ending(None, false)))
  }

  function Resuming(t: nat, seen: Instance, effect: Instance, comesUp: bool): Step {
    StepResume(t, ResumeInputs(1, None, Probed(seen), 1, 0, true, map[], Synced, Ending(Some(effect), comesUp)))
  }

  lemma Ids()
    ensures ValidId("r") && ValidId("o") && ValidId("x") && ValidId("q") && ValidId("s1") && ValidId("s2")
  {
  }

  /** One Docker profile, open, bound, at time 1, with `calls` calls begun and `acts` acts done. */
  predicate Open(b: Broker, calls: nat, acts: nat, generation: int, identity: string) {
    && b.policy == POLICY && b.running && b.session == "s" && b.mem.epoch == "e" && b.now == 1
    && b.nextThread == calls && |b.acts| == acts
    && RuntimeOf(b.mem, "m").generation == generation && RuntimeOf(b.mem, "m").identity == Plain(identity)
  }

  /** Opened and bound, before any request. */
  function Ready(): Broker {
    Next(Next(Initial(POLICY, 1), StepOpen(POLICY, "e", Synced)), StepBind("s"))
  }

  lemma ReadyState()
    ensures var b := Ready(); Open(b, 0, 0, 0, "") && b.mem.attempts == map[] && b.tokens == map[] && b.threads == map[]
  {
  }

  predicate Stopping(b: Broker) {
    && Open(b, 1, 1, 1, "c1") && b.tokens == map[] && b.threads.Keys == {0} && b.threads[0].InTail?
        && b.threads[0].r == RESTART && b.threads[0].p == MODEL
    && b.mem.attempts.Keys == {"r"}
    && var a := b.mem.attempts["r"];
       a.request == RESTART && a.digest == Some(RESTART) && a.stage == EffectAttempted && a.stoppedBy.None? && a.at == 1
  }

  /** The restart passes its preflight as call 0 and its stop is called. */
  lemma RestartStops()
    ensures Stopping(Next(Next(Ready(), Entering(RESTART, UP)),
        Resuming(0, UP, UP.(state := SupervisorState.Stopping), false)))
  {
    hide Next, Entering, Resuming, Ready, Stopping;
    ReadyState();
    RestartEnters(Ready());
    RestartCalled(Next(Ready(), Entering(RESTART, UP)));
  }

  lemma RestartEnters(b: Broker)
    requires Open(b, 0, 0, 0, "") && b.mem.attempts == map[] && b.tokens == map[] && b.threads == map[]
    ensures var b' := Next(b, Entering(RESTART, UP));
            Open(b', 1, 0, 1, "c1") && b'.mem.attempts == map[] && b'.tokens == map[]
                && b'.threads == map[0 := InPreflight(RESTART, MODEL, UP, 0)]
  {
    hide EnterDirect;
    Ids();
    assert FindProfile(POLICY.profiles, "m") == Some(MODEL);
    RestartDispatched(b.(nextThread := 1), Entering(RESTART, UP).enter);
  }

  lemma RestartDispatched(b: Broker, e: EnterInputs)
    requires Open(b, 1, 0, 0, "") && b.mem.attempts == map[] && b.tokens == map[] && b.threads == map[]
        && e == Entering(RESTART, UP).enter
    ensures var b' := EnterDirect(b, 0, RESTART, MODEL, e).b;
            Open(b', 1, 0, 1, "c1") && b'.mem.attempts == map[] && b'.tokens == map[]
                && b'.threads == map[0 := InPreflight(RESTART, MODEL, UP, 0)]
  {
    hide Validate, RecordSatisfied, RecordStarting, FinalSection, StopAdmission, EvidenceReceipt;
    assert Prune(b.mem, 1) == b.mem;
    FirstLook(b.mem);
  }

  /** The first look at the instance gives it generation 1, which the restart expects. */
  lemma FirstLook(j: Journal)
    requires j.epoch == "e" && RuntimeOf(j, "m").generation == 0 && RuntimeOf(j, "m").identity == Plain("")
    ensures var seen := Validate(j, POLICY, "s", RESTART, MODEL, UP, 1);
            && seen.1.None? && seen.0.attempts == j.attempts && seen.0.epoch == "e"
            && RuntimeOf(seen.0, "m").generation == 1 && RuntimeOf(seen.0, "m").identity == Plain("c1")
  {
  }

  lemma RestartCalled(b: Broker)
    requires Open(b, 1, 0, 1, "c1") && b.mem.attempts == map[] && b.tokens == map[]
        && b.threads == map[0 := InPreflight(RESTART, MODEL, UP, 0)]
    ensures Stopping(Next(b, Resuming(0, UP, UP.(state := SupervisorState.Stopping), false)))
  {
    hide ResumeChecked, Stopping;
    assert TokenOf(b, "m") == 0;
    var back := Unregister(EndThread(b, 0), 0, "m");
    assert back.threads == map[];
    RestartChecked(back);
  }

  lemma RestartChecked(b: Broker)
    requires Open(b, 1, 0, 1, "c1") && b.mem.attempts == map[] && b.tokens == map[] && b.threads == map[]
    ensures var o := ResumeChecked(b, 0, RESTART, MODEL, UP,
        Resuming(0, UP, UP.(state := SupervisorState.Stopping), false).resume);
            Stopping(o.b)
  {
    hide FinalSection, Preflight, Stopping, Validate;
    var seen := Validate(b.mem, POLICY, "s", RESTART, MODEL, UP, 1);
    RestartValid(b.mem);
    NoOthers(seen.0, true, true);
    RestartFires(b.(mem := seen.0));
  }

  lemma RestartValid(j: Journal)
    requires j.epoch == "e" && RuntimeOf(j, "m").generation == 1 && RuntimeOf(j, "m").identity == Plain("c1")
    ensures var seen := Validate(j, POLICY, "s", RESTART, MODEL, UP, 1);
            && seen.1.None? && seen.0.attempts == j.attempts && seen.0.epoch == "e"
            && RuntimeOf(seen.0, "m").generation == 1 && RuntimeOf(seen.0, "m").identity == Plain("c1")
  {
  }

  /** The only profile has no others to collide with and needs no memory. */
  lemma NoOthers(j: Journal, replace: bool, portFree: bool)
    ensures Preflight(j, POLICY, MODEL, replace, 0, portFree, map[], 1) == (j, None)
  {
    assert [MODEL][1..] == [] && MemoryNeed(MODEL) == 0;
    assert PreflightOthers(j, [], MODEL, replace, 0, 0, map[], 1) == (j, None);
  }

  lemma RestartFires(b: Broker)
    requires Open(b, 1, 0, 1, "c1") && b.mem.attempts == map[] && b.tokens == map[] && b.threads == map[]
    ensures Stopping(FinalSection(b, 0, RESTART, MODEL, UP, 1,
        Ending(Some(UP.(state := SupervisorState.Stopping)), false)).b)
  {
  }

  predicate Waiting(b: Broker, calls: nat) {
    && b.threads.Keys == {0} && b.threads[0].InTail? && b.threads[0].r == RESTART && b.threads[0].p == MODEL
        && b.tokens == map[]
    && "r" in b.mem.attempts
    && var a := b.mem.attempts["r"];
       a.request == RESTART && a.digest == Some(RESTART) && a.stage == RestartStopped && a.stoppedBy.None?
           && a.receipt.verifiedAt == Some(1) && a.at == 1
  }

  /** A duplicate of the restart finds the container down while call 0 still waits. */
  lemma DuplicateReconciles(b: Broker)
    requires Stopping(b)
    ensures var b' := Next(b, Entering(RESTART, DOWN));
            Waiting(b', 2) && Open(b', 2, 1, 1, "c1") && b'.mem.attempts.Keys == {"r"}
  {
    hide EnterDirect;
    Ids();
    assert FindProfile(POLICY.profiles, "m") == Some(MODEL);
    DuplicateDown(b.(nextThread := 2), Entering(RESTART, DOWN).enter);
  }

  lemma DuplicateDown(b: Broker, e: EnterInputs)
    requires Stopping(b.(nextThread := 1)) && b.nextThread == 2 && e == Entering(RESTART, DOWN).enter
    ensures var b' := EnterDirect(b, 1, RESTART, MODEL, e).b;
            Waiting(b', 2) && Open(b', 2, 1, 1, "c1") && b'.mem.attempts.Keys == {"r"}
  {
    hide Reconcile, Dispatch, Validate;
    ReconciledDown(b.mem, b.mem.attempts["r"]);
  }

  /** The container is down: the restart counts as stopped. */
  lemma ReconciledDown(j: Journal, a: Attempt)
    requires a.request == RESTART && a.digest == Some(RESTART) && a.stoppedBy.None? && a.at == 1
    requires RuntimeOf(j, "m").generation == 1 && RuntimeOf(j, "m").identity == Plain("c1")
    ensures var (j', a') := Reconcile(j, "s", a, MODEL, DOWN, 1);
            && j'.attempts == j.attempts && j'.epoch == j.epoch && RuntimeOf(j', "m").generation == 1
                && RuntimeOf(j', "m").identity == Plain("c1")
            && a'.request == RESTART && a'.digest == Some(RESTART) && a'.stage == RestartStopped && a'.stoppedBy.None?
                && a'.receipt.verifiedAt == Some(1) && a'.at == 1
  {
  }

  /** An admitted stop supersedes the stopped restart. */
  lemma StopSupersedes(b: Broker)
    requires Waiting(b, 2) && Open(b, 2, 1, 1, "c1") && b.mem.attempts.Keys == {"r"}
    ensures var b' := Next(b, Entering(STOP, DOWN));
            && b'.running && b'.now == 1 && "r" in b'.mem.attempts && StopCancelled(b'.mem.attempts["r"])
                && b'.threads == b.threads
  {
    hide EnterDirect, BrokerStops.StoppedProfile, StopCancelled;
    Ids();
    var e := Entering(STOP, DOWN).enter;
    assert FindProfile(POLICY.profiles, "m") == Some(MODEL);
    StopAdmitted(b, e);
    BrokerStops.StopCancelsWaiting(b, STOP, "boot", e, "r");
    StopRecorded(b.(nextThread := 3), e);
  }

  lemma StopAdmitted(b: Broker, e: EnterInputs)
    requires Waiting(b, 2) && Open(b, 2, 1, 1, "c1") && b.mem.attempts.Keys == {"r"} && e == Entering(STOP, DOWN).enter
    ensures BrokerStops.StoppedProfile(b, STOP, e) == Some("m") && BrokerStops.WaitsOn(b.mem, "r", "m")
  {
    hide Validate;
    Ids();
    StopValid(b.mem);
    assert Prune(b.mem, 1) == b.mem;
    assert FindProfile(POLICY.profiles, "m") == Some(MODEL);
  }

  lemma StopRecorded(b: Broker, e: EnterInputs)
    requires Open(b, 3, 1, 1, "c1") && b.mem.attempts.Keys == {"r"} && e == Entering(STOP, DOWN).enter
    ensures EnterDirect(b, 2, STOP, MODEL, e).b.threads == b.threads
        && SameShell(b, EnterDirect(b, 2, STOP, MODEL, e).b)
  {
    hide RecordSatisfied, StopAdmission, Validate, RecordStarting, BeginPreflight, FinalSection, Duplicate;
    StopValid(b.mem);
    assert Prune(b.mem, 1) == b.mem;
  }

  lemma StopValid(j: Journal)
    requires j.epoch == "e" && RuntimeOf(j, "m").generation == 1 && RuntimeOf(j, "m").identity == Plain("c1")
    ensures Validate(j, POLICY, "s", STOP, MODEL, DOWN, 1).1.None?
  {
  }

  lemma LateTimeout(b: Broker, last: Instance)
    requires b.running && b.now == 1 && 0 in b.threads && b.threads[0].InTail? && b.threads[0].r == RESTART
    requires "r" in b.mem.attempts && StopCancelled(b.mem.attempts["r"])
    ensures var b' := Next(b, StepTimeout(0, last, 1, Synced));
            "r" in b'.mem.attempts && !StopCancelled(b'.mem.attempts["r"])
  {
  }

  const CANCELLED_RUN := [StepOpen(POLICY, "e", Synced), StepBind("s"), Entering(RESTART, UP),
      Resuming(0, UP, UP.(state := SupervisorState.Stopping), false), Entering(RESTART, DOWN), Entering(STOP, DOWN)]

  lemma Runs(b: Broker, steps: seq<Step>, s: Step)
    ensures Run(b, steps + [s]) == Next(Run(b, steps), s)
  {
    assert (steps + [s])[..|steps|] == steps;
  }

  lemma RunsFour()
    ensures Run(Initial(POLICY, 1), CANCELLED_RUN[..4]) == Next(Next(Ready(), Entering(RESTART, UP)),
        Resuming(0, UP, UP.(state := SupervisorState.Stopping), false))
  {
    hide Next, Initial, Entering, Resuming;
    var steps := CANCELLED_RUN;
    assert steps[..1] == [] + [steps[0]] && steps[..2] == steps[..1] + [steps[1]]
        && steps[..3] == steps[..2] + [steps[2]] && steps[..4] == steps[..3] + [steps[3]];
    Runs(Initial(POLICY, 1), [], steps[0]);
    Runs(Initial(POLICY, 1), steps[..1], steps[1]);
    Runs(Initial(POLICY, 1), steps[..2], steps[2]);
    Runs(Initial(POLICY, 1), steps[..3], steps[3]);
  }

  /** A reachable cancelled restart whose receipt the late expiry of its own stop wait replaces. */
  lemma CancelledReceiptReplaced(last: Instance)
    ensures var b := Run(Initial(POLICY, 1), CANCELLED_RUN);
            && "r" in b.mem.attempts && StopCancelled(b.mem.attempts["r"])
            && var b' := Next(b, StepTimeout(0, last, 1, Synced));
                 "r" in b'.mem.attempts && !StopCancelled(b'.mem.attempts["r"])
  {
    hide Run, Next, Initial, Entering, Resuming, Stopping, Ready, StopCancelled;
    RunsFour();
    RestartStops();
    var steps := CANCELLED_RUN;
    assert steps[..5] == steps[..4] + [steps[4]] && steps == steps[..5] + [steps[5]];
    Runs(Initial(POLICY, 1), steps[..4], steps[4]);
    Runs(Initial(POLICY, 1), steps[..5], steps[5]);
    DuplicateReconciles(Run(Initial(POLICY, 1), steps[..4]));
    StopSupersedes(Run(Initial(POLICY, 1), steps[..5]));
    LateTimeout(Run(Initial(POLICY, 1), steps), last);
  }

  // ---------------------------------------------------------------- two linked starts for one restart

  /** Record "r" is the stopped restart, verified at time 1. */
  predicate RestartIs(j: Journal, stage: Stage) {
    && "r" in j.attempts && "r" !in {"s1", "s2"}
    && var a := j.attempts["r"];
       a.request == RESTART && a.digest == Some(RESTART) && a.stage == stage && a.stoppedBy.None?
           && a.receipt.verifiedAt == Some(1)
  }

  function Child(id: JobId, generation: int): ActionRequest {
    Request(id, "o", Start, generation, Some("r"))
  }

  lemma ChildValid(j: Journal, c: ActionRequest, id: JobId, generation: int)
    requires c == Child(id, generation) && RestartIs(j, RestartStopped)
    requires j.epoch == "e" && RuntimeOf(j, "m").generation == generation && RuntimeOf(j, "m").identity == Plain("c1")
    ensures var seen := Validate(j, POLICY, "s", c, MODEL, DOWN, 1);
            && seen.1.None? && seen.0.attempts == j.attempts && seen.0.epoch == "e"
            && RuntimeOf(seen.0, "m").generation == generation && RuntimeOf(seen.0, "m").identity == Plain("c1")
  {
  }

  /** A linked start is journalled and waits in preflight as call `n`. */
  lemma ChildEnters(b: Broker, c: ActionRequest, id: JobId, n: nat, acts: nat, generation: int)
    requires c == Child(id, generation) && (id == "s1" || id == "s2")
    requires Open(b, n, acts, generation, "c1") && TokenOf(b, "m") == 0 && RestartIs(b.mem, RestartStopped)
        && id !in b.mem.attempts && |b.mem.attempts| < 1024
    ensures var b' := Next(b, Entering(c, DOWN));
            && Open(b', n + 1, acts, generation, "c1") && b'.tokens == b.tokens && b'.acts == b.acts
            && b'.threads == b.threads[n := InPreflight(c, MODEL, DOWN, 0)]
            && RestartIs(b'.mem, RestartStopped) && b'.mem.attempts.Keys == b.mem.attempts.Keys + {id}
                && b'.mem.attempts[id].stage == PreflightPending
  {
    hide Validate, BeginPreflight, Dispatch, Prune, EnterDirect;
    Ids();
    ChildValid(b.mem, c, id, generation);
    assert FindProfile(POLICY.profiles, "m") == Some(MODEL);
    var e := Entering(c, DOWN).enter;
    var checked := b.(nextThread := n + 1, mem := Validate(b.mem, POLICY, "s", c, MODEL, DOWN, 1).0);
    ChildDispatched(b.(nextThread := n + 1), c, id, n, e);
    ChildBegins(checked, c, id, n, generation, e);
  }

  lemma ChildDispatched(b: Broker, c: ActionRequest, id: JobId, n: nat, e: EnterInputs)
    requires c.jobId == id && id !in b.mem.attempts && |b.mem.attempts| < 1024 && c.action == Start
        && b.policy == POLICY && b.session == "s"
    requires e == Entering(c, DOWN).enter && Validate(b.mem, POLICY, "s", c, MODEL, DOWN, 1).1.None?
    ensures EnterDirect(b, n, c, MODEL, e) == BeginPreflight(b
        .(mem := Validate(b.mem, POLICY, "s", c, MODEL, DOWN, 1).0), n, c, MODEL, DOWN, e)
  {
    hide Validate, BeginPreflight, FinalSection, RecordSatisfied, RecordStarting, StopAdmission;
    assert Prune(b.mem, 1) == b.mem;
  }

  lemma ChildBegins(b: Broker, c: ActionRequest, id: JobId, n: nat, generation: int, e: EnterInputs)
    requires c == Child(id, generation) && e.save == Synced && id != "r" && TokenOf(b, "m") == 0
    ensures var b' := BeginPreflight(b, n, c, MODEL, DOWN, e).b;
            && b'.threads == b.threads[n := InPreflight(c, MODEL, DOWN, 0)] && b'.mem.epoch == b.mem.epoch
                && b'.mem.profiles == b.mem.profiles
            && b'.mem.attempts.Keys == b.mem.attempts.Keys + {id} && b'.mem.attempts[id].stage == PreflightPending
            && (forall stage :: RestartIs(b.mem, stage) ==> RestartIs(b'.mem, stage))
  {
    hide EvidenceReceipt;
  }

  function Coming(identity: string): Instance {
    Instance(Starting, Plain(identity), 9, true, false, None)
  }

  /** The linked start passes its preflight and is called; the restart is advanced. */
  lemma ChildResumes(b: Broker, c: ActionRequest, id: JobId, n: nat, calls: nat, generation: int, identity: string)
    requires c == Child(id, generation) && (id == "s1" || id == "s2") && identity != "c1"
    requires Open(b, calls, |b.acts|, generation, "c1") && TokenOf(b, "m") == 0 && RestartIs(b.mem, RestartStopped)
    requires n in b.threads && b.threads[n] == InPreflight(c, MODEL, DOWN, 0)
    requires id in b.mem.attempts && b.mem.attempts[id].stage == PreflightPending
    ensures var b' := Next(b, Resuming(n, DOWN, Coming(identity), true));
            && Open(b', calls, |b.acts| + 1, generation + 1, identity) && b'.tokens == b.tokens
                && b'.threads - {n} == b.threads - {n}
            && RestartIs(b'.mem, StartAttempted) && b'.mem.attempts.Keys == b.mem.attempts.Keys
            && b'.acts[..|b.acts|] == b.acts && b'.acts[|b.acts|].Effect? && b'.acts[|b.acts|].request == c
                && b'.acts[|b.acts|].action == Start
  {
    hide ResumeChecked, RestartIs;
    var back := Unregister(EndThread(b, n), n, "m");
    ChildChecked(back, c, id, n, calls, generation, identity);
    var o := ResumeChecked(back, n, c, MODEL, DOWN, Resuming(n, DOWN, Coming(identity), true).resume).b;
    assert o.threads - {n} == back.threads - {n};
    assert back.threads - {n} == b.threads - {n};
  }

  lemma ChildChecked(b: Broker, c: ActionRequest, id: JobId, n: nat, calls: nat, generation: int, identity: string)
    requires c == Child(id, generation) && (id == "s1" || id == "s2") && identity != "c1"
    requires Open(b, calls, |b.acts|, generation, "c1") && RestartIs(b.mem, RestartStopped) && id in b.mem.attempts
    ensures Called(b, ResumeChecked(b, n, c, MODEL, DOWN, Resuming(n, DOWN, Coming(identity), true).resume).b, c, calls,
        generation, identity)
  {
    hide FinalSection, Preflight, Validate, Called;
    var seen := Validate(b.mem, POLICY, "s", c, MODEL, DOWN, 1);
    ChildValid(b.mem, c, id, generation);
    NoOthers(seen.0, false, true);
    ChildFires(b.(mem := seen.0), c, id, n, calls, generation, identity);
    CalledFrom(b, b.(mem := seen.0), FinalSection(b.(mem := seen.0), n, c, MODEL, DOWN, 1,
        Ending(Some(Coming(identity)), true)).b, c, calls, generation, identity);
  }

  ghost predicate Called(b: Broker, b': Broker, c: ActionRequest, calls: nat, generation: int, identity: string) {
    && Open(b', calls, |b.acts| + 1, generation + 1, identity) && RestartIs(b'.mem, StartAttempted)
        && b'.mem.attempts.Keys == b.mem.attempts.Keys
    && b'.acts[..|b.acts|] == b.acts && b'.acts[|b.acts|].Effect? && b'.acts[|b.acts|].request == c
        && b'.acts[|b.acts|].action == Start
  }

  lemma CalledFrom(b: Broker, seen: Broker, b': Broker, c: ActionRequest, calls: nat, generation: int, identity: string)
    requires seen.acts == b.acts && seen.mem.attempts == b.mem.attempts
        && Called(seen, b', c, calls, generation, identity)
    ensures Called(b, b', c, calls, generation, identity)
  {
  }

  lemma ChildFires(b: Broker, c: ActionRequest, id: JobId, n: nat, calls: nat, generation: int, identity: string)
    requires c == Child(id, generation) && (id == "s1" || id == "s2") && identity != "c1"
    requires Open(b, calls, |b.acts|, generation, "c1") && RestartIs(b.mem, RestartStopped) && id in b.mem.attempts
    ensures Called(b, FinalSection(b, n, c, MODEL, DOWN, 1, Ending(Some(Coming(identity)), true)).b, c, calls,
        generation, identity)
  {
    hide AdmittedJournal, EffectAttempt, Fire, Called;
    assert ParentStopped(b.mem, c, MODEL);
    ChildAdmitted(b, c, id, generation);
    var saved := b.(mem := AdmittedJournal(b, c, MODEL, DOWN, 1), disk := AdmittedJournal(b, c, MODEL, DOWN, 1));
    ChildEffect(b, saved, c, id, n, EffectAttempt(b, c, MODEL, DOWN, 1), calls, generation, identity);
  }

  lemma ChildAdmitted(b: Broker, c: ActionRequest, id: JobId, generation: int)
    requires c == Child(id, generation) && id != "r" && RestartIs(b.mem, RestartStopped) && id in b.mem.attempts
    ensures var j := AdmittedJournal(b, c, MODEL, DOWN, 1);
            && RestartIs(j, StartAttempted) && j.attempts.Keys == b.mem.attempts.Keys && j.epoch == b.mem.epoch
            && RuntimeOf(j, "m").generation == RuntimeOf(b.mem, "m").generation
                && RuntimeOf(j, "m").identity == RuntimeOf(b.mem, "m").identity
    ensures var a := EffectAttempt(b, c, MODEL, DOWN, 1); a.stage == EffectAttempted && a.request == c
  {
    hide EvidenceReceipt;
  }

  lemma ChildEffect(before: Broker, b: Broker, c: ActionRequest, id: JobId, n: nat, a: Attempt, calls: nat,
                    generation: int, identity: string)
    requires c == Child(id, generation) && id != "r" && identity != "c1" && a.stage == EffectAttempted
        && id in b.mem.attempts
    requires Open(b, calls, |b.acts|, generation, "c1") && RestartIs(b.mem, StartAttempted) && before.acts == b.acts
        && before.mem.attempts.Keys == b.mem.attempts.Keys
    ensures Called(before, Fire(b, n, c, MODEL, DOWN, a, 1, Ending(Some(Coming(identity)), true)).b, c, calls,
        generation, identity)
  {
    hide EvidenceReceipt;
  }

  /** The restart's own wait ends late and takes the restart back. */
  lemma LateTail(b: Broker, calls: nat, acts: nat, generation: int, identity: string)
    requires Open(b, calls, acts, generation, identity) && identity != "c1" && RestartIs(b.mem, StartAttempted)
    requires 0 in b.threads && b.threads[0].InTail? && b.threads[0].r == RESTART && b.threads[0].p == MODEL
    ensures var b' := Next(b, StepTail(0, DOWN, 1, Synced));
            && Open(b', calls, acts, generation + 1, "c1") && b'.tokens == b.tokens && b'.acts == b.acts
            && RestartIs(b'.mem, RestartStopped) && b'.mem.attempts.Keys == b.mem.attempts.Keys
  {
    hide TailSection;
    assert Enabled(b, StepTail(0, DOWN, 1, Synced));
    LateTailSection(b);
  }

  lemma LateTailSection(b: Broker)
    requires RestartIs(b.mem, StartAttempted) && RuntimeOf(b.mem, "m").identity != Plain("c1")
    ensures var o := TailSection(b, 0, RESTART, MODEL, DOWN, 1, Synced).b;
            && RestartIs(o.mem, RestartStopped) && o.mem.attempts.Keys == b.mem.attempts.Keys
                && o.mem.epoch == b.mem.epoch
            && RuntimeOf(o.mem, "m").generation == RuntimeOf(b.mem, "m").generation + 1
                && RuntimeOf(o.mem, "m").identity == Plain("c1")
  {
    hide TailRecorded, TailAttempt;
    var seen := EndThread(b, 0).(mem := Observe(b.mem, MODEL, DOWN, 1));
    LateTailRecorded(seen, b.mem.attempts["r"]);
  }

  lemma LateTailRecorded(b: Broker, a: Attempt)
    requires RestartIs(b.mem, StartAttempted) && a == b.mem.attempts["r"]
    ensures var o := TailRecorded(b, RESTART, MODEL, DOWN, a, 1);
            && RestartIs(o.mem, RestartStopped) && o.mem.attempts.Keys == b.mem.attempts.Keys
                && o.mem.epoch == b.mem.epoch
            && RuntimeOf(o.mem, "m").generation == RuntimeOf(b.mem, "m").generation
                && RuntimeOf(o.mem, "m").identity == RuntimeOf(b.mem, "m").identity
  {
  }

  const FIRST_CHILD := Child("s1", 1)
  const SECOND_CHILD := Child("s2", 3)

  const TWICE_RUN := CANCELLED_RUN[..5] +
    [Entering(FIRST_CHILD, DOWN), Resuming(2, DOWN, Coming("c2"), true), StepTail(0, DOWN, 1, Synced),
     Entering(SECOND_CHILD, DOWN), Resuming(3, DOWN, Coming("c3"), true)]

  lemma FirstChild(b: Broker)
    requires Waiting(b, 2) && Open(b, 2, 1, 1, "c1") && b.mem.attempts.Keys == {"r"}
    ensures var b' := Next(Next(Next(b, Entering(FIRST_CHILD, DOWN)), Resuming(2, DOWN, Coming("c2"), true)),
        StepTail(0, DOWN, 1, Synced));
            && Open(b', 3, 2, 3, "c1") && TokenOf(b', "m") == 0 && RestartIs(b'.mem, RestartStopped)
                && b'.mem.attempts.Keys == {"r", "s1"}
            && b'.acts[1].Effect? && b'.acts[1].request == FIRST_CHILD && b'.acts[1].action == Start
  {
    hide Next, Entering, Resuming, RestartIs;
    assert RestartIs(b.mem, RestartStopped) by { WaitingIs(b); }
    ChildEnters(b, FIRST_CHILD, "s1", 2, 1, 1);
    var entered := Next(b, Entering(FIRST_CHILD, DOWN));
    ChildResumes(entered, FIRST_CHILD, "s1", 2, 3, 1, "c2");
    var called := Next(entered, Resuming(2, DOWN, Coming("c2"), true));
    assert 0 in called.threads - {2} && (called.threads - {2})[0] == (entered.threads - {2})[0] by {
      assert 0 in entered.threads - {2};
    }
    LateTail(called, 3, 2, 2, "c2");
  }

  lemma WaitingIs(b: Broker)
    requires Waiting(b, 2)
    ensures RestartIs(b.mem, RestartStopped)
  {
  }

  lemma SecondChild(b: Broker)
    requires Open(b, 3, 2, 3, "c1") && TokenOf(b, "m") == 0 && RestartIs(b.mem, RestartStopped)
        && b.mem.attempts.Keys == {"r", "s1"}
    requires b.acts[1].Effect? && b.acts[1].request == FIRST_CHILD && b.acts[1].action == Start
    ensures var b' := Next(Next(b, Entering(SECOND_CHILD, DOWN)), Resuming(3, DOWN, Coming("c3"), true));
            && |b'.acts| == 3 && b'.acts[1] == b.acts[1]
            && b'.acts[2].Effect? && b'.acts[2].request == SECOND_CHILD && b'.acts[2].action == Start
  {
    hide Next, Entering, Resuming, RestartIs;
    ChildEnters(b, SECOND_CHILD, "s2", 3, 2, 3);
    var entered := Next(b, Entering(SECOND_CHILD, DOWN));
    ChildResumes(entered, SECOND_CHILD, "s2", 3, 4, 3, "c3");
    var called := Next(entered, Resuming(3, DOWN, Coming("c3"), true));
    assert called.acts[1] == called.acts[..2][1];
  }

  /** A reachable state of the direct path in which two different linked starts of one restart have been called. */
  lemma LinkedStartTwice()
    ensures var acts := Run(Initial(POLICY, 1), TWICE_RUN).acts;
            && |acts| == 3 && acts[1].Effect? && acts[2].Effect? && acts[1].action == Start && acts[2].action == Start
            && acts[1].request != acts[2].request
                && acts[1].request.parentJobId == acts[2].request.parentJobId == Some("r")
  {
    hide Run, Next, Initial, Entering, Resuming, Stopping, Ready, StopCancelled, RestartIs, Waiting;
    RunsFour();
    RestartStops();
    var steps := TWICE_RUN;
    var b := Initial(POLICY, 1);
    assert steps[..4] == CANCELLED_RUN[..4] && steps[..5] == steps[..4] + [steps[4]]
        && steps[..6] == steps[..5] + [steps[5]] && steps[..7] == steps[..6] + [steps[6]];
    assert steps[..8] == steps[..7] + [steps[7]] && steps[..9] == steps[..8] + [steps[8]]
        && steps == steps[..9] + [steps[9]];
    Runs(b, steps[..4], steps[4]);
    Runs(b, steps[..5], steps[5]);
    Runs(b, steps[..6], steps[6]);
    Runs(b, steps[..7], steps[7]);
    Runs(b, steps[..8], steps[8]);
    Runs(b, steps[..9], steps[9]);
    DuplicateReconciles(Run(b, steps[..4]));
    FirstChild(Run(b, steps[..5]));
    SecondChild(Run(b, steps[..8]));
  }

  // ---------------------------------------------------------------- a restart delivered again after a stop

  const STOPS := Entering(STOP, UP)
  const GOING := UP.(state := SupervisorState.Stopping)

  /** The restart waits in preflight as call `n` with token `k`, without a record; `acts` acts were made. */
  predicate RestartWaits(b: Broker, n: nat, k: nat, acts: nat) {
    && Open(b, n + 1, acts, 1, "c1") && "r" !in b.mem.attempts && |b.mem.attempts| <= 1 && TokenOf(b, "m") == k
    && n in b.threads && b.threads[n] == InPreflight(RESTART, MODEL, UP, k)
  }

  /** The stop was called and its outcome is unknown; the restart still waits as call 0. */
  predicate StopCalled(b: Broker) {
    && Open(b, 2, 1, 1, "c1") && b.mem.attempts.Keys == {"x"} && TokenOf(b, "m") == 1
    && b.mem.attempts["x"].stage == EffectAttempted && b.mem.attempts["x"].receipt.status == StatusUnknown
    && b.acts[0].Effect? && b.acts[0].request == STOP && b.acts[0].action == Stop
  }

  lemma StopValidUp(j: Journal)
    requires j.epoch == "e" && RuntimeOf(j, "m").generation == 1 && RuntimeOf(j, "m").identity == Plain("c1")
    ensures var seen := Validate(j, POLICY, "s", STOP, MODEL, UP, 1);
            && seen.1.None? && seen.0.attempts == j.attempts && seen.0.epoch == "e"
            && RuntimeOf(seen.0, "m").generation == 1 && RuntimeOf(seen.0, "m").identity == Plain("c1")
  {
  }

  lemma StopIsCalled(b: Broker)
    requires RestartWaits(b, 0, 0, 0) && b.mem.attempts == map[]
    ensures StopCalled(Next(b, STOPS)) && BrokerStops.StoppedProfile(b, STOP, STOPS.enter) == Some("m")
  {
    hide EnterDirect, Validate;
    Ids();
    assert FindProfile(POLICY.profiles, "m") == Some(MODEL);
    assert Prune(b.mem, 1) == b.mem;
    StopValidUp(b.mem);
    StopDispatched(b.(nextThread := 2));
  }

  lemma StopDispatched(b: Broker)
    requires Open(b, 2, 0, 1, "c1") && b.mem.attempts == map[] && TokenOf(b, "m") == 0
    ensures StopCalled(EnterDirect(b, 1, STOP, MODEL, STOPS.enter).b)
  {
    hide Validate, RecordSatisfied, RecordStarting, BeginPreflight, FinalSection, CancelForStop;
    assert Prune(b.mem, 1) == b.mem;
    StopValidUp(b.mem);
    var checked := b.(mem := Validate(b.mem, POLICY, "s", STOP, MODEL, UP, 1).0);
    NothingToCancel(checked.mem);
    StopFires(StopAdmission(checked, "m"));
  }

  lemma StopFires(b: Broker)
    requires Open(b, 2, 0, 1, "c1") && b.mem.attempts == map[] && TokenOf(b, "m") == 1
    ensures StopCalled(FinalSection(b, 1, STOP, MODEL, UP, 1, Ending(None, false)).b)
  {
  }

  lemma NothingToCancel(j: Journal)
    requires j.attempts == map[]
    ensures CancelForStop(j, "m").attempts == map[] && CancelForStop(j, "m").epoch == j.epoch
    ensures RuntimeOf(CancelForStop(j, "m"), "m").generation == RuntimeOf(j, "m").generation
    ensures RuntimeOf(CancelForStop(j, "m"), "m").identity == RuntimeOf(j, "m").identity
  {
  }

  lemma RestartReenters(b: Broker)
    requires StopCalled(b)
    ensures RestartWaits(Next(b, Entering(RESTART, UP)), 2, 1, 1) && Next(b, Entering(RESTART, UP)).acts == b.acts
  {
    hide EnterDirect;
    Ids();
    assert FindProfile(POLICY.profiles, "m") == Some(MODEL);
    ReenterDispatched(b.(nextThread := 3));
  }

  lemma ReenterDispatched(b: Broker)
    requires Open(b, 3, 1, 1, "c1") && b.mem.attempts.Keys == {"x"} && TokenOf(b, "m") == 1
    ensures var o := EnterDirect(b, 2, RESTART, MODEL, Entering(RESTART, UP).enter).b;
            RestartWaits(o, 2, 1, 1) && o.acts == b.acts
  {
    hide Validate, RecordSatisfied, RecordStarting, FinalSection, StopAdmission, EvidenceReceipt;
    assert |b.mem.attempts| == |b.mem.attempts.Keys| == 1;
    assert Prune(b.mem, 1) == b.mem;
    RestartValid(b.mem);
  }

  lemma RestartActs(b: Broker)
    requires RestartWaits(b, 2, 1, 1)
    ensures BrokerReentry.ActedOnce(b.acts, Next(b, Resuming(2, UP, GOING, false)).acts, 2, RESTART)
  {
    hide Resume, Validate, Preflight;
    var x := Resuming(2, UP, GOING, false).resume;
    RestartValid(b.mem);
    NoOthers(Validate(b.mem, POLICY, "s", RESTART, MODEL, UP, 1).0, true, true);
    BrokerReentry.ResumeActsExactly(b, 2, x);
  }

  const REENTRY_RUN := [
    StepOpen(POLICY, "e", Synced), StepBind("s"), Entering(RESTART, UP), STOPS, Entering(RESTART, UP),
    Resuming(2, UP, GOING, false)]

  /** A restart has no record while it is in preflight: delivered again after a stop was admitted and called, it is
      still carried out. */
  lemma RestartActsAfterStop()
    ensures var waiting := Run(Initial(POLICY, 1), REENTRY_RUN[..3]);
            BrokerReentry.StopsUnder(waiting, STOP, "boot", STOPS.enter, 0, RESTART)
    ensures var acts := Run(Initial(POLICY, 1), REENTRY_RUN).acts;
            && |acts| == 2 && acts[0].Effect? && acts[0].request == STOP
            && acts[1].Effect? && acts[1].request == RESTART && acts[1].thread == 2
  {
    hide Run, Next, Initial, Entering, Resuming, BrokerStops.StoppedProfile, Ready;
    ReadyState();
    RestartEnters(Ready());
    var steps := REENTRY_RUN;
    var b := Initial(POLICY, 1);
    assert steps[..1] == [] + [steps[0]] && steps[..2] == steps[..1] + [steps[1]];
    assert steps[..3] == steps[..2] + [steps[2]] && steps[..4] == steps[..3] + [steps[3]];
    assert steps[..5] == steps[..4] + [steps[4]] && steps == steps[..5] + [steps[5]];
    Runs(b, [], steps[0]);
    Runs(b, steps[..1], steps[1]);
    Runs(b, steps[..2], steps[2]);
    Runs(b, steps[..3], steps[3]);
    Runs(b, steps[..4], steps[4]);
    Runs(b, steps[..5], steps[5]);
    RunsNone(b);
    assert Run(b, steps[..2]) == Ready() by { ReadyIs(); }
    StopIsCalled(Run(b, steps[..3]));
    StopEnabled(Run(b, steps[..3]));
    RestartReenters(Run(b, steps[..4]));
    RestartActs(Run(b, steps[..5]));
  }

  lemma ReadyIs()
    ensures Ready() == Next(Next(Initial(POLICY, 1), StepOpen(POLICY, "e", Synced)), StepBind("s"))
  {
    hide Next, Initial;
  }

  lemma StopEnabled(b: Broker)
    requires Open(b, 1, 0, 1, "c1")
    ensures Enabled(b, STOPS) && STOPS == StepEnter(STOP, "boot", STOPS.enter)
  {
  }

  lemma RunsNone(b: Broker)
    ensures Run(b, []) == b
  {
  }
}
