/**
  What the worker keeps over every run: a job stands for one durable request and
  at most one durable stage request, only those are ever sent, and "start not
  attempted" is said only of jobs whose stage request was never and will never
  be sent.
*/
module WorkerOnce {
  import opened SparkTypes
  import opened WorkerRules

  /** The prepared deadline is what the controller's budget leaves. */
  predicate LeaseOf(r: ActionRequest, l: Lease) {
    && l.asked <= l.received <= l.prepared
    && r.deadline <= l.prepared + Remaining(l.deadline, l.serverTime, l.asked, l.received)
    && (r.parentJobId.Some? ==> l.received == l.prepared)
    && (r.parentJobId.None? ==> r.deadline == l.prepared + Remaining(l.deadline, l.serverTime, l.asked, l.received))
  }

  predicate StageShaped(id: JobId, r: ActionRequest) {
    r.parentJobId == Some(id) && r.action == Start && !r.local
  }

  predicate JobShaped(id: JobId, j: Job) {
    && (j.request.Some? ==> j.request.value.jobId == id && j.request.value.parentJobId.None? && !j.request.value.local
                             && LeaseOf(j.request.value, j.lease) && j.lease.deadline == j.envelope.deadline)
    && (j.stageRequest.Some? ==> StageShaped(id, j.stageRequest.value) && j.renewalAttempted && j.stage.Some?)
    && (j.stageRequest.Some? && j.stage.Some? ==>
          LeaseOf(j.stageRequest.value, j.stageLease) && j.stageLease.deadline == j.stage.value.deadline)
    && (j.renewing ==> j.renewalAttempted)
  }

  ghost predicate JobsShaped(jobs: map<JobId, Job>) {
    forall id :: id in jobs ==> JobShaped(id, jobs[id])
  }

  /** The job the request was made for holds it. */
  predicate Holds(jobs: map<JobId, Job>, r: ActionRequest) {
    match r.parentJobId
    case None => r.jobId in jobs && jobs[r.jobId].request == Some(r)
    case Some(id) => id in jobs && jobs[id].stageRequest == Some(r)
  }

  ghost predicate SentHeld(w: Worker) {
    forall r :: r in w.sent ==> !r.local && Holds(w.jobs, r) && Holds(w.disk, r)
  }

  /** What job `j` in memory could send, and a renewal under way, is on disk as `d`. */
  predicate Backed(j: Job, d: Job) {
    && (j.request.Some? ==> d.request == j.request) && (j.stageRequest.Some? ==> d.stageRequest == j.stageRequest)
    && (j.renewing ==> d.renewalAttempted)
  }

  ghost predicate Durable(w: Worker) {
    forall id :: id in w.jobs ==> id in w.disk && Backed(w.jobs[id], w.disk[id])
  }

  /** No stage request was made for the job, and none can be any more. */
  predicate Closed(jobs: map<JobId, Job>, id: JobId) {
    id in jobs && jobs[id].renewalAttempted && jobs[id].stageRequest.None?
  }

  predicate JobSays(jobs: map<JobId, Job>, id: JobId) {
    id in jobs && NotAttempted(jobs[id].receipt)
  }

  ghost predicate ReportSays(reported: set<(JobId, Receipt)>, id: JobId) {
    exists r :: (id, r) in reported && NotAttempted(r)
  }

  /** Memory, journal or an earlier report says that the start of job `id` was not attempted. */
  ghost predicate SaysNotAttempted(w: Worker, id: JobId) {
    JobSays(w.jobs, id) || JobSays(w.disk, id) || ReportSays(w.reported, id)
  }

  ghost predicate NotAttemptedClosed(w: Worker) {
    forall id :: SaysNotAttempted(w, id) ==> Closed(w.jobs, id) && Closed(w.disk, id)
  }

  /** A renewal under way belongs to a job marked so, of which nothing final was said yet. */
  ghost predicate RenewalsMarked(w: Worker) {
    forall n :: n in w.calls && !w.calls[n].Executing? ==>
      var id := w.calls[n].id;
      && id in w.jobs && w.jobs[id].renewing && w.jobs[id].renewalAttempted
      && (w.calls[n].Renewing? ==> w.jobs[id].stageRequest.None? && !SaysNotAttempted(w, id))
  }

  /** Both calls are about the renewal of one job. */
  predicate BothRenew(c: Call, d: Call) {
    !c.Executing? && !d.Executing? && c.id == d.id
  }

  ghost predicate OneRenewal(w: Worker) {
    forall n, m :: n in w.calls && m in w.calls && BothRenew(w.calls[n], w.calls[m]) ==> n == m
  }

  ghost predicate CallsNumbered(w: Worker) {
    forall n :: n in w.calls ==> n < w.nextCall
  }

  ghost predicate Inv(w: Worker) {
    && JobsShaped(w.jobs) && JobsShaped(w.disk) && SentHeld(w) && Durable(w) && NotAttemptedClosed(w)
    && RenewalsMarked(w) && OneRenewal(w) && CallsNumbered(w)
  }

  // ---------------------------------------------------------------- maps of jobs with one entry replaced

  predicate KeepsRequests(j: Job, j': Job) {
    j'.request == j.request && (j.stageRequest.Some? ==> j'.stageRequest == j.stageRequest)
  }

  lemma UpdatedShapes(jobs: map<JobId, Job>, id: JobId, j: Job)
    requires JobsShaped(jobs) && JobShaped(id, j)
    ensures JobsShaped(jobs[id := j])
  {
  }

  lemma UpdatedHolds(jobs: map<JobId, Job>, id: JobId, j: Job, r: ActionRequest)
    requires id in jobs && KeepsRequests(jobs[id], j) && Holds(jobs, r)
    ensures Holds(jobs[id := j], r)
  {
  }

  /** Every job is backed by itself. */
  lemma BackedBySelf(jobs: map<JobId, Job>, id: JobId)
    requires JobsShaped(jobs) && id in jobs
    ensures Backed(jobs[id], jobs[id])
  {
    assert JobShaped(id, jobs[id]);
  }

  /** One job `id` of memory became `j`, of the journal `d`; the journal may have been rewritten from memory. */
  ghost predicate OneChanged(w: Worker, w': Worker, id: JobId, j: Job, d: Job) {
    && id in w.jobs && KeepsRequests(w.jobs[id], j) && JobShaped(id, j) && KeepsRequests(w.jobs[id], d)
        && JobShaped(id, d)
    && w'.jobs == w.jobs[id := j] && (w'.disk == w.disk || w'.disk == w.jobs[id := d])
    && (id in w'.disk ==> Backed(j, w'.disk[id]))
    && w'.sent == w.sent
  }

  lemma OneChangedRecords(w: Worker, w': Worker, id: JobId, j: Job, d: Job)
    requires JobsShaped(w.jobs) && JobsShaped(w.disk) && SentHeld(w) && Durable(w) && OneChanged(w, w', id, j, d)
    ensures JobsShaped(w'.jobs) && JobsShaped(w'.disk) && SentHeld(w') && Durable(w')
  {
    hide JobShaped, Holds, KeepsRequests;
    UpdatedShapes(w.jobs, id, j);
    UpdatedShapes(w.jobs, id, d);
    forall r | r in w'.sent
      ensures Holds(w'.jobs, r) && Holds(w'.disk, r)
    {
      UpdatedHolds(w.jobs, id, j, r);
      UpdatedHolds(w.jobs, id, d, r);
    }
    forall k | k in w'.jobs
      ensures k in w'.disk && Backed(w'.jobs[k], w'.disk[k])
    {
      if k != id {
        BackedBySelf(w.jobs, k);
      }
    }
  }

  // ---------------------------------------------------------------- one job rewritten in place

  /** Job `j` becomes `j'` without losing what was durable or said of it. */
  predicate Mild(j: Job, j': Job) {
    && j'.request == j.request && j'.stageRequest == j.stageRequest && j'.envelope == j.envelope && j'.stage == j.stage
    && j'.lease == j.lease && j'.stageLease == j.stageLease
    && (j.renewalAttempted ==> j'.renewalAttempted) && (j'.renewing ==> j.renewing)
    && (NotAttempted(j'.receipt) ==> NotAttempted(j.receipt))
  }

  ghost predicate MildChange(w: Worker, w': Worker) {
    && w'.jobs.Keys == w.jobs.Keys && (forall id :: id in w.jobs ==> Mild(w.jobs[id], w'.jobs[id]))
    && (w'.disk == w.disk || w'.disk == w'.jobs)
    && w'.sent == w.sent && w'.nextCall == w.nextCall
    && w'.calls.Keys <= w.calls.Keys && (forall n :: n in w'.calls ==> w'.calls[n] == w.calls[n])
    && (forall n :: n in w'.calls && !w'.calls[n].Executing? && w'.calls[n].id in w.jobs ==>
        w'.jobs[w'.calls[n].id].renewing == w.jobs[w'.calls[n].id].renewing)
    && (forall id :: ReportSays(w'.reported, id) ==> SaysNotAttempted(w, id))
  }

  lemma MildSays(w: Worker, w': Worker, id: JobId)
    requires MildChange(w, w') && SaysNotAttempted(w', id)
    ensures SaysNotAttempted(w, id)
  {
    hide ReportSays;
  }

  lemma MildKeepsRecords(w: Worker, w': Worker)
    requires Inv(w) && MildChange(w, w')
    ensures JobsShaped(w'.jobs) && JobsShaped(w'.disk) && SentHeld(w') && Durable(w')
  {
    hide NotAttemptedClosed, RenewalsMarked, OneRenewal, CallsNumbered, LeaseOf, ReportSays, SaysNotAttempted;
    forall id | id in w'.jobs
      ensures JobShaped(id, w'.jobs[id])
    {
      assert JobShaped(id, w.jobs[id]) && Mild(w.jobs[id], w'.jobs[id]);
    }
    forall r | r in w'.sent
      ensures Holds(w'.jobs, r)
    {
      assert Holds(w.jobs, r);
    }
    forall id | id in w'.jobs
      ensures id in w'.disk && Backed(w'.jobs[id], w'.disk[id])
    {
      assert JobShaped(id, w.jobs[id]) && Mild(w.jobs[id], w'.jobs[id]) && Backed(w.jobs[id], w.disk[id]);
    }
  }

  lemma MildKeepsSaid(w: Worker, w': Worker)
    requires Inv(w) && MildChange(w, w')
    ensures NotAttemptedClosed(w') && RenewalsMarked(w') && OneRenewal(w') && CallsNumbered(w')
  {
    hide JobsShaped, SentHeld, Durable, SaysNotAttempted, ReportSays;
    forall id | SaysNotAttempted(w', id)
      ensures Closed(w'.jobs, id) && Closed(w'.disk, id)
    {
      MildSays(w, w', id);
      assert Closed(w.jobs, id) && Mild(w.jobs[id], w'.jobs[id]);
    }
    forall n | n in w'.calls && !w'.calls[n].Executing?
      ensures var id := w'.calls[n].id;
              && id in w'.jobs && w'.jobs[id].renewing && w'.jobs[id].renewalAttempted
              && (w'.calls[n].Renewing? ==> w'.jobs[id].stageRequest.None? && !SaysNotAttempted(w', id))
    {
      var id := w'.calls[n].id;
      assert n in w.calls && w.calls[n] == w'.calls[n];
      assert Mild(w.jobs[id], w'.jobs[id]);
      if SaysNotAttempted(w', id) {
        MildSays(w, w', id);
      }
    }
  }

  lemma MildKeepsInv(w: Worker, w': Worker)
    requires Inv(w) && MildChange(w, w')
    ensures Inv(w')
  {
    MildKeepsRecords(w, w');
    MildKeepsSaid(w, w');
  }

  // ---------------------------------------------------------------- the steps

  lemma SameReports(w: Worker, w': Worker)
    requires w'.reported == w.reported
    ensures forall id :: ReportSays(w'.reported, id) ==> SaysNotAttempted(w, id)
  {
    hide ReportSays;
  }

  /** One job rewritten mildly, and perhaps saved. */
  lemma PutMild(w: Worker, w': Worker, id: JobId, j: Job)
    requires id in w.jobs && Mild(w.jobs[id], j) && j.renewing == w.jobs[id].renewing
    requires w'.jobs == w.jobs[id := j] && (w'.disk == w.disk || w'.disk == w'.jobs)
    requires w'.sent == w.sent && w'.nextCall == w.nextCall && w'.reported == w.reported
    requires w'.calls.Keys <= w.calls.Keys && forall n :: n in w'.calls ==> w'.calls[n] == w.calls[n]
    ensures MildChange(w, w')
  {
    hide ReportSays, SaysNotAttempted;
    SameReports(w, w');
  }

  lemma FinishKeepsInv(w: Worker, n: nat, answer: Option<Receipt>, save: Write)
    requires Inv(w) && Enabled(w, Step.Done(n, answer, save)) && (answer.Some? ==> !NotAttempted(answer.value))
    ensures Inv(Finish(w, n, answer, save))
  {
    hide Inv, MildChange;
    var w', c := Finish(w, n, answer, save), w.calls[n];
    if c.id in w.jobs {
      PutMild(w, w', c.id, w.jobs[c.id].(running := false, receipt := Answered(c, answer), acked := false));
      MildKeepsInv(w, w');
    } else {
      CallEnds(w, n);
    }
  }

  lemma CallEnds(w: Worker, n: nat)
    requires Inv(w) && n in w.calls && w.calls[n].Executing?
    ensures Inv(w.(calls := w.calls - {n}))
  {
    hide Inv, ReportSays, SaysNotAttempted;
    SameReports(w, w.(calls := w.calls - {n}));
    assert MildChange(w, w.(calls := w.calls - {n}));
    MildKeepsInv(w, w.(calls := w.calls - {n}));
  }

  lemma ReportKeepsInv(w: Worker, ids: set<JobId>)
    requires Inv(w) && Enabled(w, Report(ids))
    ensures Inv(Apply(w, Report(ids)))
  {
    hide Inv;
    var w' := Apply(w, Report(ids));
    forall id | ReportSays(w'.reported, id)
      ensures SaysNotAttempted(w, id)
    {
      var r :| (id, r) in w'.reported && NotAttempted(r);
      if (id, r) in w.reported {
        assert ReportSays(w.reported, id);
      }
    }
    assert MildChange(w, w');
    MildKeepsInv(w, w');
  }

  lemma AcknowledgedMild(w: Worker, acks: set<JobId>, committed: set<JobId>)
    ensures var jobs := Acknowledged(w, acks, committed);
            jobs.Keys == w.jobs.Keys && (forall id :: id in w.jobs ==>
                Mild(w.jobs[id], jobs[id]) && jobs[id].renewing == w.jobs[id].renewing)
  {
  }

  lemma AcknowledgeKeepsInv(w: Worker, acks: set<JobId>, committed: set<JobId>, save: Write)
    requires Inv(w)
    ensures Inv(SaveJobs(w.(jobs := Acknowledged(w, acks, committed)), save))
  {
    hide Inv, Acknowledged, Mild, ReportSays, SaysNotAttempted;
    var w' := SaveJobs(w.(jobs := Acknowledged(w, acks, committed)), save);
    SameReports(w, w');
    AcknowledgedMild(w, acks, committed);
    assert MildChange(w, w');
    MildKeepsInv(w, w');
  }

  // ---------------------------------------------------------------- taking a job

  lemma AcceptKnown(w: Worker, job: Envelope, l: Lease, save: Write)
    requires Inv(w) && job.jobId in w.jobs
    ensures Inv(Accept(w, job, l, save))
  {
    hide Inv, MildChange;
    if w.jobs[job.jobId].envelope != job {
      PutMild(w, Accept(w, job, l, save), job.jobId, w.jobs[job.jobId].(receipt := Conflict(job), acked := false));
      MildKeepsInv(w, Accept(w, job, l, save));
    }
  }

  /** The journal may hold a job that memory gave up; memory itself keeps it only if the save succeeded. */
  lemma AcceptNew(w: Worker, job: Envelope, l: Lease, save: Write)
    requires Inv(w) && job.jobId !in w.jobs && Enabled(w, Take(job, l, save))
    ensures Inv(Accept(w, job, l, save))
  {
    hide JobsShaped, SentHeld, Durable, NotAttemptedClosed, RenewalsMarked, OneRenewal, CallsNumbered, Judge, Added,
        LeaseOf, SaveJobs;
    if |w.jobs| < MAX_JOBS {
      var id, made := job.jobId, Judge(w, job, l);
      var w' := Accept(w, job, l, save);
      AcceptAdds(w, job, l, save);
      AcceptShapes(w, w', id, made);
      AcceptHeld(w, w', id, made);
      AcceptDurable(w, w', id, made);
      AcceptSaid(w, w', id, made);
    }
  }

  ghost predicate Added(w: Worker, w': Worker, id: JobId, made: Job) {
    && id !in w.jobs && JobShaped(id, made) && !NotAttempted(made.receipt) && made.stageRequest.None? && !made.renewing
    && (w'.jobs == w.jobs || (w'.jobs == w.jobs[id := made] && w'.disk == w'.jobs))
    && (w'.disk == w.disk || w'.disk == w.jobs[id := made])
    && w'.sent == w.sent && w'.calls == w.calls && w'.nextCall == w.nextCall && w'.reported == w.reported
  }

  lemma AcceptAdds(w: Worker, job: Envelope, l: Lease, save: Write)
    requires job.jobId !in w.jobs && |w.jobs| < MAX_JOBS && Enabled(w, Take(job, l, save))
    ensures var made := Judge(w, job, l); var w' := Accept(w, job, l, save);
            Added(w, w', job.jobId, made)
  {
  }

  lemma AcceptShapes(w: Worker, w': Worker, id: JobId, made: Job)
    requires JobsShaped(w.jobs) && JobsShaped(w.disk) && Added(w, w', id, made)
    ensures JobsShaped(w'.jobs) && JobsShaped(w'.disk)
  {
    hide JobShaped;
  }

  lemma AcceptHeld(w: Worker, w': Worker, id: JobId, made: Job)
    requires SentHeld(w) && Added(w, w', id, made)
    ensures SentHeld(w')
  {
    hide JobShaped;
    forall r | r in w'.sent
      ensures Holds(w'.jobs, r) && Holds(w'.disk, r)
    {
      assert Holds(w.jobs, r) && Holds(w.disk, r);
    }
  }

  lemma AcceptDurable(w: Worker, w': Worker, id: JobId, made: Job)
    requires Durable(w) && JobsShaped(w.jobs) && Added(w, w', id, made)
    ensures Durable(w')
  {
    assert forall k :: k in w.jobs ==> JobShaped(k, w.jobs[k]);
  }

  lemma AcceptSaid(w: Worker, w': Worker, id: JobId, made: Job)
    requires Inv(w) && Added(w, w', id, made)
    ensures NotAttemptedClosed(w') && RenewalsMarked(w') && OneRenewal(w') && CallsNumbered(w')
  {
    hide JobsShaped, SentHeld, Durable, ReportSays, JobShaped;
    assert !SaysNotAttempted(w, id) by {
      assert !Closed(w.jobs, id);
    }
    forall k | SaysNotAttempted(w', k)
      ensures SaysNotAttempted(w, k)
    {
    }
  }

  // ---------------------------------------------------------------- executing

  lemma SendKeepsInv(w: Worker, id: JobId, stage: bool, r: ActionRequest)
    requires Inv(w) && id in w.jobs && (w.jobs[id].request == Some(r) || w.jobs[id].stageRequest == Some(r))
    ensures Inv(w.(calls := w.calls[w.nextCall := Executing(id, stage, r)], nextCall := w.nextCall + 1,
        sent := w.sent + {r}))
  {
    hide ReportSays, LeaseOf, SaysNotAttempted;
    assert JobShaped(id, w.jobs[id]) && Backed(w.jobs[id], w.disk[id]) && JobShaped(id, w.disk[id]);
    var w' := w.(calls := w.calls[w.nextCall := Executing(id, stage, r)], nextCall := w.nextCall + 1,
        sent := w.sent + {r});
    forall k
      ensures SaysNotAttempted(w', k) == SaysNotAttempted(w, k)
    {
      SaysFrom(w, w', k);
    }
  }

  lemma SaysFrom(w: Worker, w': Worker, id: JobId)
    requires w'.jobs == w.jobs && w'.disk == w.disk && w'.reported == w.reported
    ensures SaysNotAttempted(w', id) == SaysNotAttempted(w, id)
  {
  }

  lemma ExecuteKeepsInv(w: Worker, id: JobId, stage: bool)
    requires Inv(w)
    ensures Inv(Execute(w, id, stage))
  {
    hide Inv, MildChange;
    if id in w.jobs && ToSend(w.jobs[id], stage).Some? {
      var marked := PutJob(w, id, w.jobs[id].(running := true));
      PutMild(w, marked, id, w.jobs[id].(running := true));
      MildKeepsInv(w, marked);
      SendKeepsInv(marked, id, stage, ToSend(w.jobs[id], stage).value);
    }
  }

  // ---------------------------------------------------------------- "start not attempted"

  ghost predicate Failed(w: Worker, w': Worker, id: JobId, j: Job) {
    && id in w.jobs && j.request == w.jobs[id].request && j.stageRequest == w.jobs[id].stageRequest
        && j.envelope == w.jobs[id].envelope
    && j.stage == w.jobs[id].stage && j.lease == w.jobs[id].lease && j.stageLease == w.jobs[id].stageLease
    && j.renewalAttempted == w.jobs[id].renewalAttempted && j.renewing == w.jobs[id].renewing
    && (w'.jobs == w.jobs || (w'.jobs == w.jobs[id := j] && w'.disk == w'.jobs))
        && (w'.disk == w.disk || w'.disk == w.jobs[id := j])
    && w'.sent == w.sent && w'.calls == w.calls && w'.nextCall == w.nextCall && w'.reported == w.reported
  }

  lemma FailedRecords(w: Worker, w': Worker, id: JobId, j: Job)
    requires Inv(w) && Failed(w, w', id, j)
    ensures JobsShaped(w'.jobs) && JobsShaped(w'.disk) && SentHeld(w') && Durable(w')
  {
    hide NotAttemptedClosed, RenewalsMarked, OneRenewal, CallsNumbered, SentHeld;
    assert JobShaped(id, w.jobs[id]) && Backed(w.jobs[id], w.disk[id]) && w.jobs[id := w.jobs[id]] == w.jobs;
    var now := if w'.jobs == w.jobs then w.jobs[id] else j;
    assert OneChanged(w, w', id, now, j);
    OneChangedRecords(w, w', id, now, j);
  }

  lemma FailedSaid(w: Worker, w': Worker, id: JobId, j: Job)
    requires Inv(w) && Failed(w, w', id, j) && w.jobs[id].renewalAttempted && w.jobs[id].stageRequest.None?
        && !w.jobs[id].renewing
    ensures NotAttemptedClosed(w') && RenewalsMarked(w') && OneRenewal(w') && CallsNumbered(w')
  {
    hide JobsShaped, SentHeld, ReportSays;
    forall k | SaysNotAttempted(w', k) && k != id
      ensures SaysNotAttempted(w, k)
    {
    }
    forall k | SaysNotAttempted(w', k)
      ensures Closed(w'.jobs, k) && Closed(w'.disk, k)
    {
      if k == id && w'.disk == w.disk {
        assert SaysNotAttempted(w, id);
      }
    }
  }

  lemma FailKeepsInv(w: Worker, id: JobId, code: Code, save: Write)
    requires Inv(w) && id in w.jobs && w.jobs[id].renewalAttempted && !w.jobs[id].renewing
    ensures Inv(FailUnattempted(w, id, code, save))
  {
    hide JobsShaped, SentHeld, Durable, NotAttemptedClosed, RenewalsMarked, OneRenewal, CallsNumbered;
    var w' := FailUnattempted(w, id, code, save);
    if w.jobs[id].stageRequest.None? && AwaitsStart(w.jobs[id]) {
      assert Failed(w, w', id, Unattempted(w.jobs[id], code));
      FailedRecords(w, w', id, Unattempted(w.jobs[id], code));
      FailedSaid(w, w', id, Unattempted(w.jobs[id], code));
    }
  }

  lemma EndKeepsInv(w: Worker, n: nat, save: Write)
    requires Inv(w) && Enabled(w, EndRenewal(n, save))
    ensures Inv(RenewEnd(w, n, save))
  {
    hide FailUnattempted, JobsShaped, SentHeld, Durable, NotAttemptedClosed, CallsNumbered, ReportSays,
        SaysNotAttempted;
    var c := w.calls[n];
    var ended := PutJob(w, c.id, w.jobs[c.id].(renewing := false)).(calls := w.calls - {n});
    SameReports(w, ended);
    assert w.jobs[c.id].renewalAttempted;
    assert MildChange(w, ended);
    MildKeepsInv(w, ended);
    FailKeepsInv(ended, c.id, c.code, save);
  }

  // ---------------------------------------------------------------- renewals

  ghost predicate Marked(w: Worker, w': Worker, id: JobId, started: Time) {
    && id in w.jobs && !w.jobs[id].renewalAttempted
    && w'.sent == w.sent && w'.reported == w.reported
    && var j := w.jobs[id].(renewalAttempted := true);
       (|| (w'.jobs == w.jobs[id := j] && (w'.disk == w.disk || w'.disk == w'.jobs) && w'.calls == w.calls
           && w'.nextCall == w.nextCall)
        || (w'.jobs == w.jobs[id := j.(renewing := true)] && w'.disk == w.jobs[id := j] &&
            w'.calls == w.calls[w.nextCall := Renewing(id, w.jobs[id].envelope.operationId, started)]
                && w'.nextCall == w.nextCall + 1))
  }

  lemma MarkedRecords(w: Worker, w': Worker, id: JobId, started: Time)
    requires Inv(w) && Marked(w, w', id, started)
    ensures JobsShaped(w'.jobs) && JobsShaped(w'.disk) && SentHeld(w') && Durable(w')
  {
    hide NotAttemptedClosed, RenewalsMarked, OneRenewal, CallsNumbered, SentHeld;
    assert JobShaped(id, w.jobs[id]) && Backed(w.jobs[id], w.disk[id]);
    var d := w.jobs[id].(renewalAttempted := true);
    assert OneChanged(w, w', id, w'.jobs[id], d);
    OneChangedRecords(w, w', id, w'.jobs[id], d);
  }

  lemma MarkedSaid(w: Worker, w': Worker, id: JobId, started: Time)
    requires Inv(w) && Marked(w, w', id, started)
    ensures NotAttemptedClosed(w') && RenewalsMarked(w') && OneRenewal(w') && CallsNumbered(w')
  {
    hide SentHeld, ReportSays;
    assert JobShaped(id, w.jobs[id]);
    assert !SaysNotAttempted(w, id) by {
      assert !Closed(w.jobs, id);
    }
    forall k | SaysNotAttempted(w', k)
      ensures SaysNotAttempted(w, k)
    {
    }
    forall n | n in w.calls && !w.calls[n].Executing?
      ensures w.calls[n].id != id
    {
    }
  }

  lemma RenewKeepsInv(w: Worker, id: JobId, started: Time, save: Write)
    requires Inv(w)
    ensures Inv(RenewBegin(w, id, started, save))
  {
    hide JobsShaped, SentHeld, Durable, NotAttemptedClosed, RenewalsMarked, OneRenewal, CallsNumbered;
    if id in w.jobs && !w.jobs[id].renewalAttempted {
      assert Marked(w, RenewBegin(w, id, started, save), id, started);
      MarkedRecords(w, RenewBegin(w, id, started, save), id, started);
      MarkedSaid(w, RenewBegin(w, id, started, save), id, started);
    }
  }

  /** A renewal got its answer: at most the stage and, if that is durable, the stage request are new. */
  ghost predicate Staged(w: Worker, w': Worker, n: nat, stage: Option<StageAuthorization>, r: ActionRequest, l: Lease,
                         code: Code) {
    && n in w.calls && w.calls[n].Renewing? && w.calls[n].id in w.jobs
    && var id := w.calls[n].id;
       && w'.calls == w.calls[n := Renewed(id, code)] && w'.nextCall == w.nextCall && w'.sent == w.sent
           && w'.reported == w.reported
       && r.parentJobId == Some(id) && r.action == Start && !r.local
           && (w'.disk == w.disk || (LeaseOf(r, l) && stage.Some? && l.deadline == stage.value.deadline))
       && var j := w.jobs[id].(stage := stage);
          || (w'.jobs == w.jobs[id := j] && w'.disk == w.disk)
          || (w'.jobs == w.jobs[id := j.(stageRequest := None)]
              && w'.disk == w.jobs[id := j.(stageRequest := Some(r), stageLease := l)])
          || (w'.jobs == w.jobs[id := j.(stageRequest := Some(r), stageLease := l)] && w'.disk == w'.jobs)
          || (w'.jobs == w.jobs[id := j.(stageRequest := None)] && w'.disk == w.disk)
  }

  /** The job of a renewal with its new stage, with and without the request, is shaped and keeps what was sent. */
  lemma StagedJob(id: JobId, j: Job, stage: Option<StageAuthorization>, r: ActionRequest, l: Lease)
    requires JobShaped(id, j) && j.renewalAttempted && j.stageRequest.None?
    ensures var staged := j.(stage := stage);
            JobShaped(id, staged) && KeepsRequests(j, staged) && staged.(stageRequest := None) == staged
    ensures StageShaped(id, r) && LeaseOf(r, l) && stage.Some? && l.deadline == stage.value.deadline ==>
              var full := j.(stage := stage, stageRequest := Some(r), stageLease := l);
              JobShaped(id, full) && KeepsRequests(j, full) && Backed(full, full) && Backed(j.(stage := stage), full)
  {
    hide LeaseOf;
  }

  lemma StagedOne(w: Worker, w': Worker, n: nat, stage: Option<StageAuthorization>, r: ActionRequest, l: Lease,
                  code: Code)
    requires JobsShaped(w.jobs) && JobsShaped(w.disk) && Durable(w) && Staged(w, w', n, stage, r, l, code)
    requires var j := w.jobs[w.calls[n].id]; j.renewalAttempted && j.stageRequest.None?
    ensures var id := w.calls[n].id; var full := w.jobs[id].(stage := stage, stageRequest := Some(r), stageLease := l);
            && id in w'.jobs
            && OneChanged(w, w', id, w'.jobs[id], if w'.disk == w.disk then w'.jobs[id] else full)
  {
    hide LeaseOf, JobShaped;
    var id := w.calls[n].id;
    assert JobShaped(id, w.jobs[id]) && id in w.disk && Backed(w.jobs[id], w.disk[id]) && JobShaped(id, w.disk[id]);
    StagedJob(id, w.jobs[id], stage, r, l);
  }

  lemma StagedRecords(w: Worker, w': Worker, n: nat, stage: Option<StageAuthorization>, r: ActionRequest, l: Lease,
                      code: Code)
    requires Inv(w) && Staged(w, w', n, stage, r, l, code)
    ensures JobsShaped(w'.jobs) && JobsShaped(w'.disk) && SentHeld(w') && Durable(w')
  {
    hide NotAttemptedClosed, OneRenewal, CallsNumbered, SaysNotAttempted, SentHeld, JobsShaped, Durable, OneChanged;
    var id := w.calls[n].id;
    assert w.jobs[id].renewalAttempted && w.jobs[id].stageRequest.None?;
    StagedOne(w, w', n, stage, r, l, code);
    var full := w.jobs[id].(stage := stage, stageRequest := Some(r), stageLease := l);
    OneChangedRecords(w, w', id, w'.jobs[id], if w'.disk == w.disk then w'.jobs[id] else full);
  }

  lemma StagedSaid(w: Worker, w': Worker, n: nat, stage: Option<StageAuthorization>, r: ActionRequest, l: Lease,
                   code: Code)
    requires Inv(w) && Staged(w, w', n, stage, r, l, code)
    ensures NotAttemptedClosed(w') && RenewalsMarked(w') && OneRenewal(w') && CallsNumbered(w')
  {
    hide SentHeld, ReportSays, JobsShaped, LeaseOf;
    var id := w.calls[n].id;
    forall k | SaysNotAttempted(w', k)
      ensures SaysNotAttempted(w, k)
    {
    }
    forall m | m in w.calls && !w.calls[m].Executing? && m != n
      ensures w.calls[m].id != id
    {
    }
  }

  lemma PrepareStages(w: Worker, n: nat, reply: Answer, preparedAt: Time, save: Write)
      returns (stage: Option<StageAuthorization>, r: ActionRequest, l: Lease, code: Code)
    requires Enabled(w, Prepare(n, reply, preparedAt, save)) && w.jobs[w.calls[n].id].stageRequest.None?
    ensures Staged(w, RenewPrepare(w, n, reply, preparedAt, save), n, stage, r, l, code)
  {
    hide AuthorizationValid, StagePrepared, Staged;
    var c := w.calls[n];
    r, l := ZERO_REQUEST.(parentJobId := Some(c.id), action := Start), Lease(0, 0, 0, 0, 0);
    if reply.NoAnswer? {
      stage, code := w.jobs[c.id].stage, StageAuthorizationUnavailable;
      SameStage(w, c.id);
      RefusedStages(w, n, stage, r, l, code);
    } else if reply.serverTime.None? || !AuthorizationValid(w, reply.auth, reply.serverTime.value, c.operation) {
      stage, code := w.jobs[c.id].stage, InvalidStageAuthorization;
      SameStage(w, c.id);
      RefusedStages(w, n, stage, r, l, code);
    } else {
      stage := Some(reply.auth);
      var serverTime := reply.serverTime.value;
      if StageRemaining(reply.auth, serverTime, c.started, preparedAt) <= 0 {
        code := StageDispatchExpired;
        RefusedStages(w, n, stage, r, l, code);
      } else {
        r := StageRequestFor(reply.auth, c.id, c.operation, serverTime, c.started, preparedAt);
        l := Lease(reply.auth.deadline, serverTime, c.started, preparedAt, preparedAt);
        code := PreparedStages(w, n, reply.auth, r, l, save);
      }
    }
  }

  lemma SameStage(w: Worker, id: JobId)
    requires id in w.jobs
    ensures PutJob(w, id, w.jobs[id].(stage := w.jobs[id].stage)) == w
  {
    assert w.jobs[id := w.jobs[id]] == w.jobs;
  }

  lemma RefusedStages(w: Worker, n: nat, stage: Option<StageAuthorization>, r: ActionRequest, l: Lease, code: Code)
    requires n in w.calls && w.calls[n].Renewing? && w.calls[n].id in w.jobs && r.parentJobId == Some(w.calls[n].id)
        && r.action == Start && !r.local
    ensures Staged(w, RenewRefused(PutJob(w, w.calls[n].id, w.jobs[w.calls[n].id].(stage := stage)), n, code), n, stage,
        r, l, code)
  {
    hide LeaseOf;
  }

  lemma PreparedStages(w: Worker, n: nat, auth: StageAuthorization, r: ActionRequest, l: Lease, save: Write)
      returns (code: Code)
    requires n in w.calls && w.calls[n].Renewing? && w.calls[n].id in w.jobs && r.parentJobId == Some(w.calls[n].id)
        && r.action == Start && !r.local && LeaseOf(r, l) && l.deadline == auth.deadline
    ensures Staged(w, StagePrepared(w, n, auth, r, l, save), n, Some(auth), r, l, code)
  {
    hide LeaseOf;
    code := StagePrepared(w, n, auth, r, l, save).calls[n].code;
  }

  lemma RenewalOpen(w: Worker, n: nat)
    requires RenewalsMarked(w) && n in w.calls && w.calls[n].Renewing?
    ensures w.calls[n].id in w.jobs && w.jobs[w.calls[n].id].stageRequest.None?
  {
  }

  lemma PrepareKeepsInv(w: Worker, n: nat, reply: Answer, preparedAt: Time, save: Write)
    requires Inv(w) && Enabled(w, Prepare(n, reply, preparedAt, save))
    ensures Inv(RenewPrepare(w, n, reply, preparedAt, save))
  {
    hide JobsShaped, SentHeld, Durable, NotAttemptedClosed, RenewalsMarked, OneRenewal, CallsNumbered, RenewPrepare,
        Staged;
    var w' := RenewPrepare(w, n, reply, preparedAt, save);
    assert w.jobs[w.calls[n].id].stageRequest.None? by { RenewalOpen(w, n); }
    var stage, r, l, code := PrepareStages(w, n, reply, preparedAt, save);
    StagedRecords(w, w', n, stage, r, l, code);
    StagedSaid(w, w', n, stage, r, l, code);
  }

  // ---------------------------------------------------------------- restarts of the worker

  lemma ReloadKeepsInv(w: Worker, session: string)
    requires Inv(w)
    ensures Inv(w.(session := session, control := false, jobs := Reloaded(w.disk), calls := map[]))
  {
    hide JobsShaped, SentHeld, Durable, NotAttemptedClosed;
    var w' := w.(session := session, control := false, jobs := Reloaded(w.disk), calls := map[]);
    ReloadRecords(w, w');
    ReloadSaid(w, w');
  }

  lemma ReloadRecords(w: Worker, w': Worker)
    requires JobsShaped(w.disk) && SentHeld(w)
    requires w'.jobs == Reloaded(w.disk) && w'.disk == w.disk && w'.sent == w.sent
    ensures JobsShaped(w'.jobs) && SentHeld(w') && Durable(w')
  {
    forall id | id in w'.jobs
      ensures JobShaped(id, w'.jobs[id]) && Backed(w'.jobs[id], w'.disk[id])
    {
      assert JobShaped(id, w.disk[id]);
    }
    forall r | r in w'.sent
      ensures Holds(w'.jobs, r)
    {
      assert Holds(w.disk, r);
    }
  }

  lemma ReloadSaid(w: Worker, w': Worker)
    requires NotAttemptedClosed(w) && w'.jobs == Reloaded(w.disk) && w'.disk == w.disk && w'.reported == w.reported
    ensures NotAttemptedClosed(w')
  {
    hide ReportSays;
    forall id | SaysNotAttempted(w', id)
      ensures Closed(w'.jobs, id) && Closed(w'.disk, id)
    {
      assert SaysNotAttempted(w, id);
    }
  }

  /** An answer of the broker is not the worker's own verdict. */
  predicate FromBroker(s: Step) {
    s.Done? && s.answer.Some? ==> !NotAttempted(s.answer.value)
  }

  lemma NextKeepsInv(w: Worker, s: Step)
    requires Inv(w) && FromBroker(s)
    ensures Inv(Next(w, s))
  {
    hide Inv, Accept, Execute, Finish, FailUnattempted, RenewBegin, RenewPrepare, RenewEnd, Acknowledged, Reloaded;
    if Enabled(w, s) {
      match s
      case Take(job, l, save) => if job.jobId in w.jobs { AcceptKnown(w, job, l, save); }
          else { AcceptNew(w, job, l, save); }
      case Run(id, stage) => ExecuteKeepsInv(w, id, stage);
      case Done(n, answer, save) => FinishKeepsInv(w, n, answer, save);
      case Recover(id, save) => FailKeepsInv(w, id, StageAuthorizationInterrupted, save);
      case Renew(id, started, save) => RenewKeepsInv(w, id, started, save);
      case Prepare(n, reply, preparedAt, save) => PrepareKeepsInv(w, n, reply, preparedAt, save);
      case EndRenewal(n, save) => EndKeepsInv(w, n, save);
      case Report(ids) => ReportKeepsInv(w, ids);
      case Acknowledge(acks, committed, save) => AcknowledgeKeepsInv(w, acks, committed, save);
      case Features(control) => FeaturesKeepInv(w, control);
      case Restarted(session) => ReloadKeepsInv(w, session);
    }
  }

  lemma FeaturesKeepInv(w: Worker, control: bool)
    requires Inv(w)
    ensures Inv(w.(control := control))
  {
    hide Inv, ReportSays, SaysNotAttempted;
    SameReports(w, w.(control := control));
    assert MildChange(w, w.(control := control));
    MildKeepsInv(w, w.(control := control));
  }
}
