/**
  The Spark worker as a state machine (`internal/spark/worker.go`): jobs taken
  from the controller, the local requests made of them, and the one-shot renewal
  of a stopped restart.  One step is one critical section under the worker's
  mutex; `jobs` is memory, `disk` the receipt journal, and `sent` and `reported`
  are auxiliary histories.
*/
module WorkerRules {
  import opened SparkTypes

  /** A job as the controller sent it.  `action` is empty for anything that is not a model action; `params` is empty
      when they do not decode. */
  datatype Envelope = Envelope(
    jobId: JobId,
    operationId: string,
    action: Option<Action>,
    schemaVersion: int,
    controllerId: string,
    params: Option<Params>,
    deadline: Time,
    rest: string)

  datatype StageAuthorization = StageAuthorization(
    parentOperationId: string,
    stageId: JobId,
    isStart: bool,
    params: Params,
    issuedAt: Time,
    deadline: Time)

  /** What is known of the clocks when a request was prepared: the controller's deadline and time stamp, and the
      host's readings before asking, on receipt and when preparing. */
  datatype Lease = Lease(deadline: Time, serverTime: Time, asked: Time, received: Time, prepared: Time)

  const NO_LEASE := Lease(ZERO_TIME, ZERO_TIME, ZERO_TIME, ZERO_TIME, ZERO_TIME)

  /** A job as the worker keeps it.  `lease` and `stageLease` are auxiliary: the clock readings its two requests were
      prepared from. */
  datatype Job = Job(
    envelope: Envelope,
    request: Option<ActionRequest>,
    receipt: Receipt,
    stage: Option<StageAuthorization>,
    stageRequest: Option<ActionRequest>,
    renewalAttempted: bool,
    snapshotAcked: bool,
    acked: bool,
    running: bool,
    renewing: bool,
    lease: Lease,
    stageLease: Lease)

  /** Work of the worker outside its mutex. */
  datatype Call =
    | Executing(id: JobId, stage: bool, request: ActionRequest)
    | Renewing(id: JobId, operation: string, started: Time)
    | Renewed(id: JobId, code: Code)

  datatype Worker = Worker(
    controllerId: string,
    session: string,
    control: bool,
    jobs: map<JobId, Job>,
    disk: map<JobId, Job>,
    calls: map<nat, Call>,
    nextCall: nat,
    sent: set<ActionRequest>,
    reported: set<(JobId, Receipt)>)

  const MAX_JOBS := 2048

  function PutJob(w: Worker, id: JobId, j: Job): (o: Worker)
    ensures o.sent == w.sent
  {
    w.(jobs := w.jobs[id := j])
  }

  /** A write of the receipt journal; more than 2048 jobs are never written. */
  function SaveJobs(w: Worker, save: Write): (o: Worker)
    ensures o.sent == w.sent
  {
    if |w.jobs| > MAX_JOBS || save == FailedOld then w else w.(disk := w.jobs)
  }

  predicate SaveFails(w: Worker, save: Write) {
    |w.jobs| > MAX_JOBS || save != Synced
  }

  // ---------------------------------------------------------------- leases

  /** What is left of the controller's budget after the time spent since asking. */
  function Remaining(deadline: Time, serverTime: Time, asked: Time, received: Time): Time {
    (deadline - serverTime) - (received - asked)
  }

  predicate LeaseUsable(l: Lease) {
    && l.serverTime != ZERO_TIME && l.asked != ZERO_TIME
    && 0 < l.deadline - l.serverTime <= DISPATCH_LEASE
    && Remaining(l.deadline, l.serverTime, l.asked, l.received) > 0
  }

  function RequestFor(job: Envelope, l: Lease): ActionRequest
    requires job.action.Some? && job.params.Some?
  {
    ActionRequest(job.jobId, job.operationId, job.action.value, job.params.value, l.prepared,
                  l.prepared + Remaining(l.deadline, l.serverTime, l.asked, l.received), None, false)
  }

  function Min(a: Time, b: Time): Time {
    if a < b then a else b
  }

  function StageRemaining(auth: StageAuthorization, serverTime: Time, started: Time, preparedAt: Time): Time {
    Min(Remaining(auth.deadline, serverTime, started, preparedAt), auth.deadline - preparedAt)
  }

  function StageRequestFor(auth: StageAuthorization, id: JobId, operation: string, serverTime: Time, started: Time,
                           preparedAt: Time): ActionRequest {
    ActionRequest(auth.stageId, operation, Start, auth.params, preparedAt,
                  preparedAt + StageRemaining(auth, serverTime, started, preparedAt), Some(id), false)
  }

  // ---------------------------------------------------------------- taking a job (worker.go:602-656)

  function NewJob(job: Envelope, status: Status, stage: ReceiptStage, code: Code, request: Option<ActionRequest>,
                  l: Lease): Job {
    Job(job, request, Receipt(job.jobId, job.operationId, status, stage, code, None, None), None, None, false, false,
        false, false, false, l, NO_LEASE)
  }

  /** The record made of a job that was not known yet. */
  function Judge(w: Worker, job: Envelope, l: Lease): Job {
    if job.controllerId != w.controllerId || job.schemaVersion != 3
        then NewJob(job, StatusRejected, Unsupported, ControllerIdentityMismatch, None, l)
    else if job.action.None? || !w.control then NewJob(job, StatusUnsupported, Unsupported, NoCode, None, l)
    else if job.params.None? then NewJob(job, StatusRejected, Unsupported, InvalidModelParameters, None, l)
    else if !LeaseUsable(l) then NewJob(job, StatusExpired, Unsupported, DispatchExpired, None, l)
    else NewJob(job, StatusAccepted, Prepared, NoCode, Some(RequestFor(job, l)), l)
  }

  function Conflict(job: Envelope): Receipt {
    Receipt(job.jobId, job.operationId, StatusRejected, ModelRejected, IdempotencyConflict, None, None)
  }

  function Accept(w: Worker, job: Envelope, l: Lease, save: Write): (o: Worker)
    ensures o.sent == w.sent
  {
    if job.jobId in w.jobs then
      if w.jobs[job.jobId].envelope != job then
        SaveJobs(PutJob(w, job.jobId, w.jobs[job.jobId].(receipt := Conflict(job), acked := false)), save)
      else w
    else if |w.jobs| >= MAX_JOBS then w
    else
      var made := Judge(w, job, l);
      var stored := SaveJobs(PutJob(w, job.jobId, made), save);
      if SaveFails(PutJob(w, job.jobId, made), save) then stored.(jobs := w.jobs) else stored
  }

  // ---------------------------------------------------------------- executing (worker.go:657-706)

  /** The request a call to the broker would carry, if the job may be executed now. */
  function ToSend(j: Job, stage: bool): Option<ActionRequest> {
    if j.running || j.request.None? then None
    else if stage && j.stage.Some? then j.stageRequest
    else j.request
  }

  function Execute(w: Worker, id: JobId, stage: bool): Worker {
    if id !in w.jobs || ToSend(w.jobs[id], stage).None? then w
    else
      var r := ToSend(w.jobs[id], stage).value;
      PutJob(w, id, w.jobs[id].(running := true))
        .(calls := w.calls[w.nextCall := Executing(id, stage, r)], nextCall := w.nextCall + 1, sent := w.sent + {r})
  }

  /** The broker's answer as the job's receipt; no answer means an unknown result. */
  function Answered(c: Call, answer: Option<Receipt>): Receipt
    requires c.Executing?
  {
    var received := if answer.Some? then answer.value else Rejection(c.request, LocalBrokerUnavailable)
        .(status := StatusUnknown);
    if !c.stage then received
    else if received.status == StatusSucceeded then
      received.(jobId := c.id, stage := ModelRestarted,
                evidence := if received.evidence.Some? then Some(received.evidence.value
                    .(stageId := Some(c.request.jobId))) else received.evidence)
    else received.(jobId := c.id)
  }

  function Finish(w: Worker, n: nat, answer: Option<Receipt>, save: Write): (o: Worker)
    requires n in w.calls && w.calls[n].Executing?
    ensures o.sent == w.sent
  {
    var c := w.calls[n];
    var ended := w.(calls := w.calls - {n});
    if c.id !in w.jobs then ended
    else SaveJobs(PutJob(ended, c.id, w.jobs[c.id].(running := false, receipt := Answered(c, answer), acked := false)),
        save)
  }

  // ------------------------------------------------ the renewal of a stopped restart (worker.go:707-831)

  predicate AwaitsStart(j: Job) {
    j.receipt.status == StatusAwaitingConfirmation && j.receipt.stage == RestartStoppedReceipt
  }

  /** A one-shot renewal that never led to a durable stage request. */
  predicate Interrupted(j: Job) {
    j.request.Some? && !j.running && AwaitsStart(j) && j.acked && j.renewalAttempted && j.stageRequest.None?
        && !j.renewing
  }

  predicate Renewable(j: Job) {
    j.request.Some? && !j.running && AwaitsStart(j) && j.acked && !j.renewalAttempted && j.snapshotAcked
  }

  predicate StillOpen(j: Job) {
    && j.request.Some? && !j.running && !(AwaitsStart(j) && j.acked)
    && (j.receipt.status == StatusAccepted || j.receipt.status == StatusRunning || j.receipt.status == StatusUnknown)
  }

  predicate NotAttempted(r: Receipt) {
    r.stage == RestartStartNotAttempted
  }

  function Unattempted(j: Job, code: Code): Job {
    j.(receipt := j.receipt.(status := StatusFailed, stage := RestartStartNotAttempted, code := code, evidence := None),
        acked := false)
  }

  /** The start stage is reported as not attempted, unless a stage request exists; a failed save takes the report
      back. */
  function FailUnattempted(w: Worker, id: JobId, code: Code, save: Write): (o: Worker)
    requires id in w.jobs
    ensures o.sent == w.sent
  {
    var j := w.jobs[id];
    if j.stageRequest.Some? || !AwaitsStart(j) then w
    else
      var failed := PutJob(w, id, Unattempted(j, code));
      var stored := SaveJobs(failed, save);
      if SaveFails(failed, save) then stored.(jobs := w.jobs) else stored
  }

  function RenewBegin(w: Worker, id: JobId, started: Time, save: Write): (o: Worker)
    ensures o.sent == w.sent
  {
    if id !in w.jobs || w.jobs[id].renewalAttempted then w
    else
      var marked := PutJob(w, id, w.jobs[id].(renewalAttempted := true));
      var stored := SaveJobs(marked, save);
      if SaveFails(marked, save) then stored
      else PutJob(stored, id, marked.jobs[id].(renewing := true))
             .(calls := w.calls[w.nextCall := Renewing(id, w.jobs[id].envelope.operationId, started)],
                 nextCall := w.nextCall + 1)
  }

  predicate AuthorizationValid(w: Worker, auth: StageAuthorization, serverTime: Time, operation: string) {
    && serverTime >= auth.issuedAt && auth.parentOperationId == operation && auth.isStart && ValidId(auth.stageId)
    && auth.params.expectedAgentSession == w.session && 0 < auth.deadline - auth.issuedAt <= 30 * SECOND
  }

  /** The controller's answer to a renewal: nothing, or an authorization with its time stamp if that parses. */
  datatype Answer = NoAnswer | Answer(auth: StageAuthorization, serverTime: Option<Time>)

  /** The stage request is made durable; if that fails it is taken back. */
  function StagePrepared(w: Worker, n: nat, auth: StageAuthorization, r: ActionRequest, l: Lease,
                         save: Write): (o: Worker)
    requires n in w.calls && w.calls[n].Renewing? && w.calls[n].id in w.jobs
    ensures o.sent == w.sent
  {
    var c := w.calls[n];
    var staged := w.jobs[c.id].(stage := Some(auth));
    var prepared := PutJob(w, c.id, staged.(stageRequest := Some(r), stageLease := l));
    var stored := SaveJobs(prepared, save);
    if SaveFails(prepared, save) then
      stored.(jobs := w.jobs[c.id := staged.(stageRequest := None)],
          calls := w.calls[n := Renewed(c.id, StageJournalUnavailable)])
    else stored.(calls := w.calls[n := Renewed(c.id, NoCode)])
  }

  function RenewRefused(w: Worker, n: nat, code: Code): (o: Worker)
    requires n in w.calls && w.calls[n].Renewing?
    ensures o.sent == w.sent
  {
    w.(calls := w.calls[n := Renewed(w.calls[n].id, code)])
  }

  /** The stage request is prepared and made durable, or the renewal ends with a failure code. */
  function RenewPrepare(w: Worker, n: nat, answer: Answer, preparedAt: Time, save: Write): (o: Worker)
    requires n in w.calls && w.calls[n].Renewing? && w.calls[n].id in w.jobs
    ensures o.sent == w.sent
  {
    var c := w.calls[n];
    if answer.NoAnswer? then RenewRefused(w, n, StageAuthorizationUnavailable)
    else if answer.serverTime.None? || !AuthorizationValid(w, answer.auth, answer.serverTime.value, c.operation) then
      RenewRefused(w, n, InvalidStageAuthorization)
    else
      var auth, serverTime := answer.auth, answer.serverTime.value;
      if StageRemaining(auth, serverTime, c.started, preparedAt) <= 0 then
        RenewRefused(PutJob(w, c.id, w.jobs[c.id].(stage := Some(auth))), n, StageDispatchExpired)
      else
        StagePrepared(w, n, auth, StageRequestFor(auth, c.id, c.operation, serverTime, c.started, preparedAt),
                      Lease(auth.deadline, serverTime, c.started, preparedAt, preparedAt), save)
  }

  /** The end of a renewal: the start is reported as not attempted unless a stage request was made durable. */
  function RenewEnd(w: Worker, n: nat, save: Write): (o: Worker)
    requires n in w.calls && w.calls[n].Renewed? && w.calls[n].id in w.jobs
    ensures o.sent == w.sent
  {
    var c := w.calls[n];
    FailUnattempted(PutJob(w, c.id, w.jobs[c.id].(renewing := false)).(calls := w.calls - {n}), c.id, c.code, save)
  }

  // ---------------------------------------------------------------- reports, acknowledgements, restarts

  /** The controller acknowledged the receipts of `acks`; `committed` says for which stopped restarts the report also
      carried the committed stop. */
  function AckedJob(j: Job, acked: bool, committed: bool): Job {
    var seen := if acked then j.(acked := true) else j;
    if AwaitsStart(seen) && !seen.renewalAttempted then seen.(snapshotAcked := committed) else seen
  }

  function Acknowledged(w: Worker, acks: set<JobId>, committed: set<JobId>): map<JobId, Job> {
    map id | id in w.jobs :: AckedJob(w.jobs[id], id in acks, id in committed)
  }

  function Reloaded(disk: map<JobId, Job>): map<JobId, Job> {
    map id | id in disk :: disk[id].(running := false, renewing := false)
  }

  datatype Step =
    | Take(job: Envelope, lease: Lease, save: Write)
    | Run(id: JobId, stage: bool)
    | Done(n: nat, answer: Option<Receipt>, save: Write)
    | Recover(id: JobId, save: Write)
    | Renew(id: JobId, started: Time, save: Write)
    | Prepare(n: nat, reply: Answer, preparedAt: Time, save: Write)
    | EndRenewal(n: nat, save: Write)
    | Report(ids: set<JobId>)
    | Acknowledge(acks: set<JobId>, committed: set<JobId>, save: Write)
    | Features(control: bool)
    | Restarted(session: string)

  /** When a step can happen.  `Run` and `Renew` are left free: the list they come from may be stale. */
  predicate Enabled(w: Worker, s: Step) {
    match s
    case Take(job, l, _) => l.asked <= l.received <= l.prepared && l.deadline == job.deadline
    case Done(n, _, _) => n in w.calls && w.calls[n].Executing?
    case Recover(id, _) => id in w.jobs && Interrupted(w.jobs[id])
    case Prepare(n, _, preparedAt, _) => n in w.calls && w.calls[n].Renewing? && w.calls[n].id in w.jobs
        && w.calls[n].started <= preparedAt
    case EndRenewal(n, _) => n in w.calls && w.calls[n].Renewed? && w.calls[n].id in w.jobs
    case Report(ids) => forall id :: id in ids ==> id in w.jobs && !w.jobs[id].acked
    case _ => true
  }

  function Apply(w: Worker, s: Step): Worker
    requires Enabled(w, s)
  {
    match s
    case Take(job, l, save) => Accept(w, job, l, save)
    case Run(id, stage) => Execute(w, id, stage)
    case Done(n, answer, save) => Finish(w, n, answer, save)
    case Recover(id, save) => FailUnattempted(w, id, StageAuthorizationInterrupted, save)
    case Renew(id, started, save) => RenewBegin(w, id, started, save)
    case Prepare(n, reply, preparedAt, save) => RenewPrepare(w, n, reply, preparedAt, save)
    case EndRenewal(n, save) => RenewEnd(w, n, save)
    case Report(ids) => w.(reported := w.reported + set id | id in ids && id in w.jobs :: (id, w.jobs[id].receipt))
    case Acknowledge(acks, committed, save) => SaveJobs(w.(jobs := Acknowledged(w, acks, committed)), save)
    case Features(control) => w.(control := control)
    case Restarted(session) => w.(session := session, control := false, jobs := Reloaded(w.disk), calls := map[])
  }

  function Next(w: Worker, s: Step): Worker {
    if Enabled(w, s) then Apply(w, s) else w
  }

  function Started(controllerId: string, session: string): Worker {
    Worker(controllerId, session, false, map[], map[], map[], 0, {}, {})
  }
}
