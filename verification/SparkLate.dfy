/**
  A whole run of worker and broker in which an act begins after the controller's
  deadline: the worker paused between its two clock readings for longer than its
  request had taken to reach the controller.
*/
module SparkLate {
  import opened SparkTypes
  import opened BrokerRules
  import opened Broker
  import opened BrokerScenarios
  import W = WorkerRules
  import S = SparkWorld

  /** Asked and answered at 10, prepared at 15; the controller's clock shows the same time and its deadline is 100. */
  const LEASE := W.Lease(100, 10, 10, 10, 15)
  const JOB := W.Envelope("r", "o", Some(Restart), 3, "c", Some(Params("m", "v1", 1, "e", "s", true)), 100, "")
  const LATE := ActionRequest("r", "o", Restart, Params("m", "v1", 1, "e", "s", true), 15, 105, None, false)

  function EndingAt(at: Time): FinalInputs {
    FinalInputs(true, Some("d1"), at, Synced, at, None, false, Synced)
  }

  const ENTERS := StepEnter(LATE, "boot", EnterInputs(20, Probed(UP), 20, Some("d1"), Synced, EndingAt(20)))
  const RESUMES := StepResume(0, ResumeInputs(101, None, Probed(UP), 101, 0, true, map[], Synced, EndingAt(101)))

  const LATE_RUN := [
    S.OfWorker(W.Features(true)), S.OfWorker(W.Take(JOB, LEASE, Synced)), S.OfWorker(W.Run("r", false)),
    S.OfBroker(StepOpen(POLICY, "e", Synced)), S.OfBroker(StepBind("s")), S.OfBroker(ENTERS), S.OfBroker(RESUMES)]

  // ---------------------------------------------------------------- the worker

  lemma WorkerSends()
    ensures var w := W.Next(W.Next(W.Next(W.Started("c", "s"), W.Features(true)), W.Take(JOB, LEASE, Synced)),
        W.Run("r", false));
            LATE in w.sent && "r" in w.jobs && w.jobs["r"].envelope == JOB && w.jobs["r"].lease == LEASE
  {
    hide W.Execute;
    var ready := W.Next(W.Started("c", "s"), W.Features(true));
    var made := W.Judge(ready, JOB, LEASE);
    assert made.request == Some(LATE);
    var taken := W.Next(ready, W.Take(JOB, LEASE, Synced));
    assert taken.jobs == map["r" := made] by { OneJob(ready, made); }
    WorkerExecutes(taken, made);
  }

  lemma OneJob(w: W.Worker, made: W.Job)
    requires w.jobs == map[] && made == W.Judge(w, JOB, LEASE)
    ensures W.Accept(w, JOB, LEASE, Synced).jobs == map["r" := made]
  {
    assert |w.jobs[JOB.jobId := made]| == |w.jobs[JOB.jobId := made].Keys| && w.jobs[JOB.jobId := made].Keys == {"r"};
  }

  lemma WorkerExecutes(w: W.Worker, made: W.Job)
    requires w.jobs == map["r" := made] && made.request == Some(LATE) && !made.running
    requires made.envelope == JOB && made.lease == LEASE
    ensures var w' := W.Next(w, W.Run("r", false));
            LATE in w'.sent && "r" in w'.jobs && w'.jobs["r"].envelope == JOB && w'.jobs["r"].lease == LEASE
  {
  }

  // ---------------------------------------------------------------- the broker

  /** One profile, open and bound, nothing on record. */
  predicate Idle(b: Broker, generation: int, identity: string) {
    && b.policy == POLICY && b.running && b.session == "s" && b.mem.epoch == "e" && b.mem.attempts == map[]
        && b.tokens == map[] && b.acts == []
    && RuntimeOf(b.mem, "m").generation == generation && RuntimeOf(b.mem, "m").identity == Plain(identity)
  }

  lemma LateValid(j: Journal, generation: int, identity: string, at: Time)
    requires j.epoch == "e" && RuntimeOf(j, "m").generation == generation
        && RuntimeOf(j, "m").identity == Plain(identity)
    requires (generation == 0 && identity == "") || (generation == 1 && identity == "c1")
    requires 20 <= at <= 101
    ensures var seen := Validate(j, POLICY, "s", LATE, MODEL, UP, at);
            && seen.1.None? && seen.0.attempts == j.attempts && seen.0.epoch == "e"
            && RuntimeOf(seen.0, "m").generation == 1 && RuntimeOf(seen.0, "m").identity == Plain("c1")
  {
  }

  lemma LateEnters(b: Broker)
    requires Idle(b, 0, "") && b.threads == map[] && b.nextThread == 0 && b.now <= 20
    ensures var b' := Next(b, ENTERS);
            Idle(b', 1, "c1") && b'.threads == map[0 := InPreflight(LATE, MODEL, UP, 0)] && b'.now == 20
  {
    hide EnterDirect;
    Ids();
    assert FindProfile(POLICY.profiles, "m") == Some(MODEL);
    LateDispatched(b.(nextThread := 1));
  }

  lemma LateDispatched(b: Broker)
    requires Idle(b, 0, "") && b.threads == map[]
    ensures var b' := EnterDirect(b, 0, LATE, MODEL, ENTERS.enter).b;
            Idle(b', 1, "c1") && b'.threads == map[0 := InPreflight(LATE, MODEL, UP, 0)]
  {
    hide Validate, RecordSatisfied, RecordStarting, FinalSection, StopAdmission, EvidenceReceipt;
    assert Prune(b.mem, 20) == b.mem;
    LateValid(b.mem, 0, "", 20);
  }

  lemma LateResumes(b: Broker)
    requires Idle(b, 1, "c1") && b.threads == map[0 := InPreflight(LATE, MODEL, UP, 0)] && b.now <= 101
    ensures var acts := Next(b, RESUMES).acts;
            |acts| == 1 && acts[0].Effect? && acts[0].request == LATE && acts[0].at == 101
  {
    hide ResumeChecked;
    assert TokenOf(b, "m") == 0;
    LateChecked(Unregister(EndThread(b, 0), 0, "m"));
  }

  lemma LateChecked(b: Broker)
    requires Idle(b, 1, "c1")
    ensures var acts := ResumeChecked(b, 0, LATE, MODEL, UP, RESUMES.resume).b.acts;
            |acts| == 1 && acts[0].Effect? && acts[0].request == LATE && acts[0].at == 101
  {
    hide FinalSection, Preflight, Validate;
    LateValid(b.mem, 1, "c1", 101);
    var seen := Validate(b.mem, POLICY, "s", LATE, MODEL, UP, 101);
    AloneAt(seen.0, 101);
    LateFires(b.(mem := seen.0));
  }

  lemma AloneAt(j: Journal, at: Time)
    ensures Preflight(j, POLICY, MODEL, true, 0, true, map[], at) == (j, None)
  {
    assert [MODEL][1..] == [] && MemoryNeed(MODEL) == 0;
    assert PreflightOthers(j, [], MODEL, true, 0, 0, map[], at) == (j, None);
  }

  lemma LateFires(b: Broker)
    requires Idle(b, 1, "c1")
    ensures var acts := FinalSection(b, 0, LATE, MODEL, UP, 101, EndingAt(101)).b.acts;
            |acts| == 1 && acts[0].Effect? && acts[0].request == LATE && acts[0].at == 101
  {
  }

  lemma BrokerActs()
    ensures var acts := Next(Next(Ready(), ENTERS), RESUMES).acts;
            |acts| == 1 && acts[0].Effect? && acts[0].request == LATE && acts[0].at == 101
  {
    hide Next, Ready;
    ReadyState();
    LateEnters(Ready());
    LateResumes(Next(Ready(), ENTERS));
  }

  // ---------------------------------------------------------------- the run

  lemma Steps(x: S.World, steps: seq<S.WorldStep>, s: S.WorldStep)
    ensures S.Run(x, steps + [s]) == S.Next(S.Run(x, steps), s)
  {
    hide S.Next;
    assert (steps + [s])[..|steps|] == steps;
  }

  /** The worker's steps are its own, whatever the broker does. */
  lemma WorkerStep(x: S.World, s: W.Step)
    requires !s.Done?
    ensures S.Next(x, S.OfWorker(s)) == x.(w := W.Next(x.w, s))
  {
    hide W.Next;
  }

  lemma BrokerStep(x: S.World, s: Step)
    requires s.StepEnter? ==> !s.r.local && s.r in x.w.sent
    ensures S.Next(x, S.OfBroker(s)).b == Next(x.b, s) && S.Next(x, S.OfBroker(s)).w == x.w
  {
    hide Next, S.Replied;
  }

  /** A run in which the job acts at 101 by both clocks, after the controller's deadline at 100: the pause was 5 and
      the uplink 0. */
  lemma LateWithoutTheCondition()
    ensures var x := S.Run(S.Initial(POLICY, 1, "c", "s"), LATE_RUN);
            && |x.b.acts| == 1 && !x.b.acts[0].request.local && x.b.acts[0].request.parentJobId.None?
                && x.b.acts[0].request.jobId == "r"
            && "r" in x.w.jobs
            && var j, offset := x.w.jobs["r"], 0;
               S.Pause(j.lease) == 5 && S.Uplink(j.lease, offset) == 0 && x.b.acts[0].at + offset > j.envelope.deadline
  {
    hide S.Run, S.Next, W.Next, Next, Initial;
    var x0, s := S.Initial(POLICY, 1, "c", "s"), LATE_RUN;
    assert s[..1] == [] + [s[0]] && s[..2] == s[..1] + [s[1]] && s[..3] == s[..2] + [s[2]] && s[..4] == s[..3] + [s[3]];
    assert s[..5] == s[..4] + [s[4]] && s[..6] == s[..5] + [s[5]] && s == s[..6] + [s[6]];
    NoSteps(x0);
    Steps(x0, [], s[0]);
    Steps(x0, s[..1], s[1]);
    Steps(x0, s[..2], s[2]);
    Steps(x0, s[..3], s[3]);
    Steps(x0, s[..4], s[4]);
    Steps(x0, s[..5], s[5]);
    Steps(x0, s[..6], s[6]);
    WorkerStep(S.Run(x0, []), W.Features(true));
    WorkerStep(S.Run(x0, s[..1]), W.Take(JOB, LEASE, Synced));
    WorkerStep(S.Run(x0, s[..2]), W.Run("r", false));
    WorkerSends();
    BrokerStep(S.Run(x0, s[..3]), StepOpen(POLICY, "e", Synced));
    BrokerStep(S.Run(x0, s[..4]), StepBind("s"));
    BrokerStep(S.Run(x0, s[..5]), ENTERS);
    BrokerStep(S.Run(x0, s[..6]), RESUMES);
    BrokerActs();
  }

  lemma NoSteps(x: S.World)
    ensures S.Run(x, []) == x
  {
  }
}
