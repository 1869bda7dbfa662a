/**
  Worker and broker together.  The broker serves local requests and what the
  worker sent; either may crash, save badly or see duplicates at any point.
  One accepted restart then causes at most one stop and at most one linked start,
  "start not attempted" is true when said, and no act begins after the
  controller's own deadline as long as the worker's two clock readings lie no
  further apart than the request took to reach the controller.
*/
module SparkWorld {
  import opened SparkTypes
  import BrokerRules
  import opened BrokerJournal
  import opened BrokerSections
  import B = Broker
  import BrokerOnce
  import BrokerAuthority
  import W = WorkerRules
  import WorkerOnce
  import BrokerRecords
  import BrokerReplies

  /** `replies` is an auxiliary history: everything the broker has answered. */
  datatype World = World(b: B.Broker, w: W.Worker, replies: set<Receipt>)

  datatype WorldStep = OfBroker(bs: B.Step) | OfWorker(ws: W.Step)

  /** A restart is not itself linked to a restart. */
  predicate Unlinked(r: ActionRequest) {
    r.action == Restart ==> r.parentJobId.None?
  }

  /** Remote requests reach the broker only through the worker; what is requested locally is no linked restart. */
  predicate Delivered(x: World, s: B.Step) {
    s.StepEnter? ==> if s.r.local then Unlinked(s.r) else s.r in x.w.sent
  }

  /** What the worker takes for an answer is one the broker gave. */
  predicate Heard(x: World, s: W.Step) {
    s.Done? && s.answer.Some? ==> s.answer.value in x.replies
  }

  function Replied(b: B.Broker, s: B.Step): set<Receipt> {
    if B.Enabled(b, s) && Section(s) && BrokerReplies.ReplyOf(b, s).Some? then {BrokerReplies.ReplyOf(b, s).value}
        else {}
  }

  function Next(x: World, s: WorldStep): World {
    match s
    case OfBroker(bs) => if Delivered(x, bs) then x.(b := B.Next(x.b, bs), replies := x.replies + Replied(x.b, bs))
        else x
    case OfWorker(ws) => if Heard(x, ws) then x.(w := W.Next(x.w, ws)) else x
  }

  function Run(x: World, steps: seq<WorldStep>): World
    decreases |steps|
  {
    if steps == [] then x else Next(Run(x, steps[..|steps| - 1]), steps[|steps| - 1])
  }

  function Initial(policy: Policy, now: Time, controllerId: string, session: string): World {
    World(B.Initial(policy, now), W.Started(controllerId, session), {})
  }

  predicate FromWorker(sent: set<ActionRequest>, r: ActionRequest) {
    (r.local && Unlinked(r)) || r in sent
  }

  ghost predicate AllUnlinked(j: Journal) {
    forall k :: k in j.attempts && j.attempts[k].digest.Some? ==> Unlinked(j.attempts[k].digest.value)
  }

  ghost predicate HonestReplies(x: World) {
    BrokerReplies.AllHonest(x.b) && forall r :: r in x.replies ==> BrokerReplies.Honest(r)
  }

  ghost predicate CallsFrom(b: B.Broker, sent: set<ActionRequest>) {
    forall t :: t in b.threads && !b.threads[t].Snapshotting? ==> FromWorker(sent, b.threads[t].r)
  }

  /** Every act is for a local request or for one the worker sent, and began within the lease. */
  ghost predicate ActsFrom(b: B.Broker, sent: set<ActionRequest>) {
    forall i :: 0 <= i < |b.acts| ==> FromWorker(sent, b.acts[i].request) && b.acts[i].at < b.acts[i].request.deadline
  }

  ghost predicate Inv(x: World) {
    && BrokerOnce.Inv(x.b) && BrokerAuthority.AuthorityInv(x.b) && WorkerOnce.Inv(x.w) && CallsFrom(x.b, x.w.sent)
        && ActsFrom(x.b, x.w.sent)
    && HonestReplies(x) && AllUnlinked(x.b.mem) && AllUnlinked(x.b.disk)
  }

  // ---------------------------------------------------------------- the broker's steps

  /** The request a step serves is local or was sent. */
  lemma ServesSent(b: B.Broker, s: B.Step, sent: set<ActionRequest>)
    requires CallsFrom(b, sent) && B.Enabled(b, s) && Section(s) && (s.StepEnter? ==> FromWorker(sent, s.r))
    ensures s.StepEnter? || (CallOf(b, s) in b.threads && !b.threads[CallOf(b, s)].Snapshotting?) ==>
        FromWorker(sent, RequestOf(b, s))
  {
  }

  lemma SectionKeepsCalls(b: B.Broker, s: B.Step, sent: set<ActionRequest>)
    requires BrokerOnce.Inv(b) && CallsFrom(b, sent) && B.Enabled(b, s) && Section(s)
        && (s.StepEnter? ==> FromWorker(sent, s.r))
    ensures CallsFrom(B.Apply(b, s), sent)
  {
    hide B.Enter, B.Resume, B.TailSection, B.TimeoutSection, B.AdmitExisting, B.Commit, ShapedJournal, B.Submit,
        B.Query, B.BeginFinish, B.Recheck, B.SnapshotObserved, B.SnapshotSaved, B.Crashed, B.Opened;
    var b' := B.Apply(b, s);
    StepCalls(b, s);
    OwnCall(b, s);
    ServesSent(b, s, sent);
    forall t | t in b'.threads && !b'.threads[t].Snapshotting?
      ensures FromWorker(sent, b'.threads[t].r)
    {
      if t != CallOf(b, s) {
        BrokerOnce.OtherCallsKept(b, b', CallOf(b, s), t);
      }
    }
  }

  lemma SectionKeepsActs(b: B.Broker, s: B.Step, sent: set<ActionRequest>)
    requires BrokerOnce.Inv(b) && BrokerAuthority.AuthorityInv(b) && CallsFrom(b, sent) && ActsFrom(b, sent)
    requires B.Enabled(b, s) && Section(s) && (s.StepEnter? ==> FromWorker(sent, s.r))
    ensures ActsFrom(B.Apply(b, s), sent)
  {
    hide B.Enter, B.Resume, B.TailSection, B.TimeoutSection, B.AdmitExisting, B.Commit, ShapedJournal, CallsSane,
        BrokerAuthority.PreflightsOk, BrokerAuthority.Validated, B.Query, B.BeginFinish, B.Recheck, B.SnapshotObserved,
        B.SnapshotSaved, B.Crashed, B.Opened;
    var b' := B.Apply(b, s);
    ServesSent(b, s, sent);
    if !s.StepSubmit? {
      BrokerAuthority.StepAuthorized(b, s);
      if b'.acts != b.acts {
        assert forall i :: 0 <= i < |b.acts| ==> b'.acts[i] == b'.acts[..|b.acts|][i];
        ActorServes(b, s);
      }
    }
  }

  /** Only the two sections of the direct path add a supervisor call. */
  lemma ActorServes(b: B.Broker, s: B.Step)
    requires B.Enabled(b, s) && Section(s) && !s.StepSubmit? && B.Apply(b, s).acts != b.acts
    ensures s.StepEnter? || s.StepResume?
  {
    hide B.Enter, B.Resume;
  }

  /** The worker's requests are no linked restarts. */
  lemma SentUnlinked(w: W.Worker, r: ActionRequest)
    requires WorkerOnce.Inv(w) && r in w.sent
    ensures Unlinked(r)
  {
    assert WorkerOnce.Holds(w.jobs, r);
    var id := if r.parentJobId.Some? then r.parentJobId.value else r.jobId;
    assert WorkerOnce.JobShaped(id, w.jobs[id]);
  }

  lemma ServedUnlinked(x: World, s: B.Step)
    requires WorkerOnce.Inv(x.w) && CallsFrom(x.b, x.w.sent) && B.Enabled(x.b, s) && Section(s) && Delivered(x, s)
    ensures Unlinked(RequestOf(x.b, s))
  {
    hide WorkerOnce.Inv, B.Enabled;
    var r := RequestOf(x.b, s);
    if r in x.w.sent {
      SentUnlinked(x.w, r);
    }
  }

  /** Every record stands for a request that was served. */
  lemma SectionKeepsUnlinked(b: B.Broker, s: B.Step)
    requires BrokerOnce.Inv(b) && B.Enabled(b, s) && Section(s) && AllUnlinked(b.mem) && AllUnlinked(b.disk)
        && Unlinked(RequestOf(b, s))
    ensures AllUnlinked(B.Apply(b, s).mem) && AllUnlinked(B.Apply(b, s).disk)
  {
    hide B.Apply, B.Enabled, ShapedJournal, BrokerRecords.ChainOk, Unlinked;
    var b' := B.Apply(b, s);
    forall k | k in b'.mem.attempts && b'.mem.attempts[k].digest.Some?
      ensures Unlinked(b'.mem.attempts[k].digest.value)
    {
      BrokerRecords.StepSources(b, s, k);
    }
    if b'.disk != b.disk {
      forall k | k in b'.disk.attempts && b'.disk.attempts[k].digest.Some?
        ensures Unlinked(b'.disk.attempts[k].digest.value)
      {
        BrokerRecords.StepSources(b, s, k);
      }
    }
  }

  lemma RestartKeepsUnlinked(b: B.Broker, s: B.Step)
    requires B.Enabled(b, s) && !Section(s) && AllUnlinked(b.disk)
    ensures AllUnlinked(B.Apply(b, s).mem) && AllUnlinked(B.Apply(b, s).disk)
  {
    hide B.Enter, B.Resume, B.TailSection, B.TimeoutSection, B.AdmitExisting, B.Submit, B.Query, B.BeginFinish,
        B.Recheck, B.Commit, B.SnapshotObserved, B.SnapshotSaved, Unlinked;
  }

  lemma BrokerKeepsHonest(x: World, s: B.Step)
    requires HonestReplies(x) && Delivered(x, s)
    ensures HonestReplies(Next(x, OfBroker(s)))
  {
    hide BrokerReplies.AllHonest, B.Enabled, BrokerReplies.ReplyOf, B.Next, BrokerReplies.Honest;
    BrokerReplies.NextHonest(x.b, s);
  }

  lemma BrokerKeepsInv(x: World, s: B.Step)
    requires Inv(x) && Delivered(x, s)
    ensures Inv(Next(x, OfBroker(s)))
  {
    hide BrokerOnce.Inv, BrokerAuthority.AuthorityInv, WorkerOnce.Inv, B.Apply, B.Enabled, CallsFrom, ActsFrom,
        HonestReplies, AllUnlinked, Replied;
    BrokerOnce.NextKeepsInv(x.b, s);
    BrokerAuthority.NextKeepsAuthority(x.b, s);
    BrokerKeepsHonest(x, s);
    if B.Enabled(x.b, s) {
      if Section(s) {
        SectionKeepsCalls(x.b, s, x.w.sent);
        SectionKeepsActs(x.b, s, x.w.sent);
        ServedUnlinked(x, s);
        SectionKeepsUnlinked(x.b, s);
      } else {
        RestartKeepsActs(x.b, s, x.w.sent);
        RestartKeepsUnlinked(x.b, s);
      }
    }
  }

  lemma RestartKeepsActs(b: B.Broker, s: B.Step, sent: set<ActionRequest>)
    requires CallsFrom(b, sent) && ActsFrom(b, sent) && B.Enabled(b, s) && !Section(s)
    ensures CallsFrom(B.Apply(b, s), sent) && ActsFrom(B.Apply(b, s), sent)
  {
    hide B.Enter, B.Resume, B.TailSection, B.TimeoutSection, B.AdmitExisting, B.Submit, B.Query, B.BeginFinish,
        B.Recheck, B.Commit, B.SnapshotObserved, B.SnapshotSaved;
  }

  // ---------------------------------------------------------------- the worker's steps

  lemma SentGrows(w: W.Worker, s: W.Step)
    ensures w.sent <= W.Next(w, s).sent
  {
    hide W.Accept, W.Finish, W.FailUnattempted, W.RenewBegin, W.RenewPrepare, W.RenewEnd, W.SaveJobs, W.Acknowledged,
        W.Reloaded;
  }

  lemma WorkerKeepsInv(x: World, s: W.Step)
    requires Inv(x) && Heard(x, s)
    ensures Inv(x.(w := W.Next(x.w, s)))
  {
    hide BrokerOnce.Inv, BrokerAuthority.AuthorityInv, WorkerOnce.Inv, W.Next, BrokerReplies.AllHonest, AllUnlinked,
        Unlinked;
    WorkerOnce.NextKeepsInv(x.w, s);
    SentGrows(x.w, s);
  }

  lemma {:induction false} RunKeepsInv(x: World, steps: seq<WorldStep>)
    requires Inv(x)
    ensures Inv(Run(x, steps))
    decreases |steps|
  {
    hide Inv;
    if steps != [] {
      var last, s := Run(x, steps[..|steps| - 1]), steps[|steps| - 1];
      RunKeepsInv(x, steps[..|steps| - 1]);
      match s
      case OfBroker(bs) => if Delivered(last, bs) { BrokerKeepsInv(last, bs); }
      case OfWorker(ws) => if Heard(last, ws) { WorkerKeepsInv(last, ws); }
    }
  }

  lemma InitiallyInv(policy: Policy, now: Time, controllerId: string, session: string)
    ensures Inv(Initial(policy, now, controllerId, session))
  {
    hide WorkerOnce.Inv;
    BrokerAuthority.InitiallyAuthorized(policy, now);
    assert WorkerOnce.Inv(W.Started(controllerId, session)) by { WorkerStarts(controllerId, session); }
  }

  lemma WorkerStarts(controllerId: string, session: string)
    ensures WorkerOnce.Inv(W.Started(controllerId, session))
  {
  }

  // ---------------------------------------------------------------- the theorems

  /** The act carries out job `id` itself: for a restart, its stop. */
  predicate OfJob(a: B.Act, id: JobId) {
    !a.request.local && a.request.parentJobId.None? && a.request.jobId == id
  }

  /** The act is a start linked to job `id`. */
  predicate OfStage(a: B.Act, id: JobId) {
    !a.request.local && a.request.parentJobId == Some(id)
  }

  /** Over every interleaving of worker and broker, with crashes, duplicates and failed writes on both sides, a job
      is carried out at most once and at most one linked start follows it. */
  lemma JobsActOnce(policy: Policy, now: Time, controllerId: string, session: string, steps: seq<WorldStep>, id: JobId,
                    i: nat, j: nat)
    requires var acts := Run(Initial(policy, now, controllerId, session), steps).b.acts;
             i < |acts| && j < |acts| && ((OfJob(acts[i], id) && OfJob(acts[j], id))
                 || (OfStage(acts[i], id) && OfStage(acts[j], id)))
    ensures i == j
  {
    hide Run, Initial, BrokerAuthority.AuthorityInv, ShapedJournal;
    InitiallyInv(policy, now, controllerId, session);
    RunKeepsInv(Initial(policy, now, controllerId, session), steps);
    var x := Run(Initial(policy, now, controllerId, session), steps);
    SameSent(x, i, j, id);
  }

  lemma SameSent(x: World, i: nat, j: nat, id: JobId)
    requires Inv(x) && i < |x.b.acts| && j < |x.b.acts|
    requires (OfJob(x.b.acts[i], id) && OfJob(x.b.acts[j], id))
        || (OfStage(x.b.acts[i], id) && OfStage(x.b.acts[j], id))
    ensures x.b.acts[i].request == x.b.acts[j].request
  {
    hide BrokerOnce.Inv, BrokerAuthority.AuthorityInv;
    assert FromWorker(x.w.sent, x.b.acts[i].request) && FromWorker(x.w.sent, x.b.acts[j].request);
    assert WorkerOnce.Holds(x.w.jobs, x.b.acts[i].request) && WorkerOnce.Holds(x.w.jobs, x.b.acts[j].request);
  }

  /** Over every such run, a job reported as "start not attempted" has no linked start and no stage request was ever
      sent for it. */
  lemma NotAttemptedIsTrue(policy: Policy, now: Time, controllerId: string, session: string, steps: seq<WorldStep>,
                           id: JobId)
    requires WorkerOnce.SaysNotAttempted(Run(Initial(policy, now, controllerId, session), steps).w, id)
    ensures var x := Run(Initial(policy, now, controllerId, session), steps);
            && (forall r :: r in x.w.sent ==> r.parentJobId != Some(id))
            && (forall i :: 0 <= i < |x.b.acts| ==> !OfStage(x.b.acts[i], id))
  {
    hide Run, Initial, BrokerOnce.Inv, BrokerAuthority.AuthorityInv, WorkerOnce.SaysNotAttempted;
    InitiallyInv(policy, now, controllerId, session);
    RunKeepsInv(Initial(policy, now, controllerId, session), steps);
    var x := Run(Initial(policy, now, controllerId, session), steps);
    assert WorkerOnce.Closed(x.w.jobs, id);
    forall r | r in x.w.sent
      ensures r.parentJobId != Some(id)
    {
      assert WorkerOnce.Holds(x.w.jobs, r);
    }
  }

  /** Over every such run no restart on record is linked to another, so that cancelling what waits on a profile does
      not depend on the order in which the records are visited. */
  lemma RestartsStayUnlinked(policy: Policy, now: Time, controllerId: string, session: string, steps: seq<WorldStep>)
    ensures BrokerRules.RestartsUnlinked(Run(Initial(policy, now, controllerId, session), steps).b.mem.attempts)
  {
    hide Run, Initial, BrokerAuthority.AuthorityInv, WorkerOnce.Inv;
    InitiallyInv(policy, now, controllerId, session);
    RunKeepsInv(Initial(policy, now, controllerId, session), steps);
    var j := Run(Initial(policy, now, controllerId, session), steps).b.mem;
    forall k | k in j.attempts && j.attempts[k].request.action == Restart
      ensures j.attempts[k].request.parentJobId.None?
    {
      assert Shaped(k, j.attempts[k]);
    }
  }

  // ---------------------------------------------------------------- leases under clock skew

  /** How long the job's report took to reach the controller, by the host's clock; `offset` is how far the
      controller's clock is ahead. */
  function Uplink(l: W.Lease, offset: Time): Time {
    (l.serverTime - offset) - l.asked
  }

  /** How long the worker paused between its two clock readings. */
  function Pause(l: W.Lease): Time {
    l.prepared - l.received
  }

  /** The prepared deadline misses the controller's by exactly pause minus uplink. */
  lemma DeadlineError(r: ActionRequest, l: W.Lease, offset: Time)
    requires WorkerOnce.LeaseOf(r, l) && r.parentJobId.None?
    ensures r.deadline + offset - l.deadline == Pause(l) - Uplink(l, offset)
    ensures r.deadline + offset <= l.deadline <==> Pause(l) <= Uplink(l, offset)
  {
  }

  /** Over every run and for every clock offset: an act of a job begins before the controller's deadline if the pause
      was no longer than the uplink; an act of a renewed stage does so unconditionally. */
  lemma ActsWithinControllerDeadline(policy: Policy, now: Time, controllerId: string, session: string,
                                     steps: seq<WorldStep>, offset: Time, i: nat)
    requires var x := Run(Initial(policy, now, controllerId, session), steps);
             i < |x.b.acts| && !x.b.acts[i].request.local
    ensures var x := Run(Initial(policy, now, controllerId, session), steps); var a := x.b.acts[i];
            match a.request.parentJobId
            case None =>
              && a.request.jobId in x.w.jobs
              && var j := x.w.jobs[a.request.jobId];
                 Pause(j.lease) <= Uplink(j.lease, offset) ==> a.at + offset < j.envelope.deadline
            case Some(id) =>
              && id in x.w.jobs && x.w.jobs[id].stage.Some?
              && var j := x.w.jobs[id];
                 0 <= Uplink(j.stageLease, offset) ==> a.at + offset < j.stage.value.deadline
  {
    hide Run, Initial, BrokerOnce.Inv, BrokerAuthority.AuthorityInv;
    InitiallyInv(policy, now, controllerId, session);
    RunKeepsInv(Initial(policy, now, controllerId, session), steps);
    var x := Run(Initial(policy, now, controllerId, session), steps);
    var a := x.b.acts[i];
    assert FromWorker(x.w.sent, a.request) && a.at < a.request.deadline;
    assert WorkerOnce.Holds(x.w.jobs, a.request);
    var id := if a.request.parentJobId.Some? then a.request.parentJobId.value else a.request.jobId;
    assert WorkerOnce.JobShaped(id, x.w.jobs[id]);
  }
}
