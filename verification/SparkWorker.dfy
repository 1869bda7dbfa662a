/**
  The Spark worker as the object it is (`internal/spark/worker.go`): a map of
  jobs updated in place under its mutex and saved to the receipt journal.  Every
  method is tied to the step of the state machine it carries out.
*/
module SparkWorker {
  import opened SparkTypes
  import opened WorkerRules

  /** The jobs of `done` acknowledged, the others as they were. */
  function PartlyAcked(jobs: map<JobId, Job>, acks: set<JobId>, committed: set<JobId>, done: set<JobId>): map<JobId,
      Job> {
    map id | id in jobs :: if id in done then AckedJob(jobs[id], id in acks, id in committed) else jobs[id]
  }

  lemma AckStep(w: Worker, acks: set<JobId>, committed: set<JobId>, done: set<JobId>, id: JobId)
    requires id in w.jobs && id !in done
    ensures var sofar := PartlyAcked(w.jobs, acks, committed, done);
            && id in sofar && sofar[id] == w.jobs[id]
            && sofar[id := AckedJob(w.jobs[id], id in acks, id in committed)] == PartlyAcked(w.jobs, acks, committed,
                done + {id})
  {
  }

  lemma AckEnds(w: Worker, acks: set<JobId>, committed: set<JobId>)
    ensures PartlyAcked(w.jobs, acks, committed, {}) == w.jobs
        && PartlyAcked(w.jobs, acks, committed, w.jobs.Keys) == Acknowledged(w, acks, committed)
  {
  }

  /** The jobs outside `todo` that are still open, renewable, or interrupted. */
  function OpenIds(jobs: map<JobId, Job>, todo: set<JobId>): set<JobId> {
    set id | id in jobs && id !in todo && StillOpen(jobs[id])
  }

  function RenewableIds(jobs: map<JobId, Job>, todo: set<JobId>): set<JobId> {
    set id | id in jobs && id !in todo && Renewable(jobs[id])
  }

  function InterruptedIds(jobs: map<JobId, Job>, todo: set<JobId>): set<JobId> {
    set id | id in jobs && id !in todo && Interrupted(jobs[id])
  }

  lemma ScanStep(jobs: map<JobId, Job>, todo: set<JobId>, id: JobId)
    requires id in jobs && id in todo
    ensures OpenIds(jobs, todo - {id}) == OpenIds(jobs, todo) + (if StillOpen(jobs[id]) then {id} else {})
    ensures RenewableIds(jobs, todo - {id}) == RenewableIds(jobs, todo) + (if Renewable(jobs[id]) then {id} else {})
    ensures InterruptedIds(jobs, todo - {id}) == InterruptedIds(jobs, todo) + (if Interrupted(jobs[id]) then {id}
        else {})
  {
    hide StillOpen, Renewable, Interrupted;
  }

  /** The verdict of one look at a job. */
  lemma ScanVerdict(j: Job)
    ensures !(j.request.Some? && !j.running) ==> !StillOpen(j) && !Renewable(j) && !Interrupted(j)
    ensures j.request.Some? && !j.running && AwaitsStart(j) && j.acked ==>
              !StillOpen(j) && Renewable(j) == (!j.renewalAttempted && j.snapshotAcked)
                  && Interrupted(j) == (j.renewalAttempted && j.stageRequest.None? && !j.renewing)
    ensures j.request.Some? && !j.running && !(AwaitsStart(j) && j.acked) ==>
              !Renewable(j) && !Interrupted(j) && StillOpen(j) == (j.receipt.status == StatusAccepted
                  || j.receipt.status == StatusRunning || j.receipt.status == StatusUnknown)
  {
  }

  lemma ScanStart(jobs: map<JobId, Job>)
    ensures OpenIds(jobs, jobs.Keys) == {} && RenewableIds(jobs, jobs.Keys) == {}
        && InterruptedIds(jobs, jobs.Keys) == {}
  {
  }

  class SparkWorker {
    var controllerId: string
    var session: string
    var control: bool
    var jobs: map<JobId, Job>
    var disk: map<JobId, Job>
    var calls: map<nat, Call>
    var nextCall: nat
    var sent: set<ActionRequest>
    var reported: set<(JobId, Receipt)>

    function Now(): Worker
      reads this
    {
      Worker(controllerId, session, control, jobs, disk, calls, nextCall, sent, reported)
    }

    method SaveJobsLocked(save: Write) returns (ok: bool)
      modifies this`disk
      ensures Now() == SaveJobs(old(Now()), save) && (ok <==> !SaveFails(old(Now()), save))
    {
      if |jobs| > MAX_JOBS {
        return false;
      }
      if save != FailedOld {
        disk := jobs;
      }
      return save == Synced;
    }

    method PutLocked(id: JobId, j: Job)
      modifies this`jobs
      ensures Now() == PutJob(old(Now()), id, j)
    {
      jobs := jobs[id := j];
    }

    /** The record of a new job: rejected, unsupported, expired, or a durable local request within what is left of
        the budget. */
    method JudgeJob(job: Envelope, l: Lease) returns (j: Job)
      ensures j == Judge(Now(), job, l)
    {
      j := NewJob(job, StatusUnsupported, Unsupported, NoCode, None, l);
      if job.controllerId != controllerId || job.schemaVersion != 3 {
        j := NewJob(job, StatusRejected, Unsupported, ControllerIdentityMismatch, None, l);
      } else if job.action.Some? && control {
        if job.params.None? {
          j := NewJob(job, StatusRejected, Unsupported, InvalidModelParameters, None, l);
        } else {
          var issuedBudget := l.deadline - l.serverTime;
          var remaining := issuedBudget - (l.received - l.asked);
          if l.serverTime == ZERO_TIME || l.asked == ZERO_TIME || issuedBudget <= 0 || issuedBudget > DISPATCH_LEASE
              || remaining <= 0 {
            j := NewJob(job, StatusExpired, Unsupported, DispatchExpired, None, l);
          } else {
            var request := ActionRequest(job.jobId, job.operationId, job.action.value, job.params.value, l.prepared,
                l.prepared + remaining, None, false);
            j := NewJob(job, StatusAccepted, Prepared, NoCode, Some(request), l);
          }
        }
      }
    }

    method AcceptJob(job: Envelope, l: Lease, save: Write)
      modifies this
      ensures Now() == Accept(old(Now()), job, l, save)
    {
      hide Judge, Conflict;
      if job.jobId in jobs {
        var known := jobs[job.jobId];
        if known.envelope != job {
          PutLocked(job.jobId, known.(receipt := Conflict(job), acked := false));
          var saved := SaveJobsLocked(save);
        }
        return;
      }
      if |jobs| >= MAX_JOBS {
        return;
      }
      ghost var before := jobs;
      var j := JudgeJob(job, l);
      PutLocked(job.jobId, j);
      var ok := SaveJobsLocked(save);
      if !ok {
        jobs := jobs - {job.jobId};
        assert jobs == before;
      }
    }

    /** The job is marked running and its request handed to the broker, unless it is running or has nothing to send. */
    method ExecuteJob(id: JobId, stage: bool)
      modifies this
      ensures Now() == Execute(old(Now()), id, stage)
    {
      if id !in jobs || jobs[id].running || jobs[id].request.None? {
        return;
      }
      var j := jobs[id];
      var request := j.request.value;
      if stage && j.stage.Some? {
        if j.stageRequest.None? {
          return;
        }
        request := j.stageRequest.value;
      }
      jobs := jobs[id := j.(running := true)];
      calls := calls[nextCall := Executing(id, stage, request)];
      nextCall := nextCall + 1;
      sent := sent + {request};
    }

    /** The broker's answer, or none, becomes the job's receipt. */
    method FinishJob(n: nat, answer: Option<Receipt>, save: Write)
      requires n in calls && calls[n].Executing?
      modifies this
      ensures Now() == Finish(old(Now()), n, answer, save)
    {
      hide Answered, SaveJobs;
      var c := calls[n];
      var receipt := Answered(c, answer);
      calls := calls - {n};
      if c.id in jobs {
        PutLocked(c.id, jobs[c.id].(running := false, receipt := receipt, acked := false));
        var saved := SaveJobsLocked(save);
      }
    }

    /** "Start not attempted" is only ever said before a stage request exists, and only if it can be saved. */
    method FailUnattemptedStageLocked(id: JobId, j: Job, code: Code, save: Write)
      requires id in jobs && jobs[id] == j
      modifies this
      ensures Now() == FailUnattempted(old(Now()), id, code, save)
    {
      hide Unattempted, AwaitsStart, SaveJobs, SaveFails;
      if j.stageRequest.None? && AwaitsStart(j) {
        ReplaceIfSaved(id, Unattempted(j, code), save);
      }
    }

    /** A job is replaced if that can be saved; otherwise memory keeps what it had. */
    method ReplaceIfSaved(id: JobId, j: Job, save: Write)
      modifies this
      ensures var failed := PutJob(old(Now()), id, j);
              Now() == if SaveFails(failed, save) then SaveJobs(failed, save).(jobs := old(jobs))
                  else SaveJobs(failed, save)
    {
      var before := jobs;
      PutLocked(id, j);
      var ok := SaveJobsLocked(save);
      if !ok {
        jobs := before;
      }
    }

    /** What the periodic scan finds to do: jobs to execute again, restarts to renew, interrupted renewals to close. */
    method ScanPending() returns (execute: set<JobId>, renew: set<JobId>, close: set<JobId>)
      ensures execute == OpenIds(jobs, {}) && renew == RenewableIds(jobs, {}) && close == InterruptedIds(jobs, {})
    {
      hide OpenIds, RenewableIds, InterruptedIds, StillOpen, Renewable, Interrupted, AwaitsStart;
      execute, renew, close := {}, {}, {};
      var todo := jobs.Keys;
      ScanStart(jobs);
      while todo != {}
        invariant todo <= jobs.Keys
        invariant execute == OpenIds(jobs, todo) && renew == RenewableIds(jobs, todo)
            && close == InterruptedIds(jobs, todo)
        decreases |todo|
      {
        var id :| id in todo;
        ScanStep(jobs, todo, id);
        var j := jobs[id];
        ScanVerdict(j);
        if j.request.Some? && !j.running {
          if AwaitsStart(j) && j.acked {
            if !j.renewalAttempted && j.snapshotAcked {
              renew := renew + {id};
            } else if j.renewalAttempted && j.stageRequest.None? && !j.renewing {
              close := close + {id};
            }
          } else if j.receipt.status == StatusAccepted || j.receipt.status == StatusRunning
              || j.receipt.status == StatusUnknown {
            execute := execute + {id};
          }
        }
        todo := todo - {id};
      }
    }

    /** The one-shot renewal is marked durably before the controller is asked. */
    method RenewStage(id: JobId, started: Time, save: Write)
      modifies this
      ensures Now() == RenewBegin(old(Now()), id, started, save)
    {
      if id !in jobs || jobs[id].renewalAttempted {
        return;
      }
      var marked := jobs[id].(renewalAttempted := true);
      PutLocked(id, marked);
      var ok := SaveJobsLocked(save);
      if !ok {
        return;
      }
      PutLocked(id, marked.(renewing := true));
      calls := calls[nextCall := Renewing(id, marked.envelope.operationId, started)];
      nextCall := nextCall + 1;
    }

    /** The controller's answer: a stage request is prepared and made durable, or the renewal has failed. */
    method PrepareStage(n: nat, answer: Answer, preparedAt: Time, save: Write)
      requires n in calls && calls[n].Renewing? && calls[n].id in jobs
      modifies this
      ensures Now() == RenewPrepare(old(Now()), n, answer, preparedAt, save)
    {
      hide AuthorizationValid, StagePrepared;
      var c := calls[n];
      if answer.NoAnswer? {
        calls := calls[n := Renewed(c.id, StageAuthorizationUnavailable)];
        return;
      }
      if answer.serverTime.None? || !AuthorizationValid(Now(), answer.auth, answer.serverTime.value, c.operation) {
        calls := calls[n := Renewed(c.id, InvalidStageAuthorization)];
        return;
      }
      var auth, serverTime := answer.auth, answer.serverTime.value;
      var remaining := (auth.deadline - serverTime) - (preparedAt - c.started);
      remaining := if remaining < auth.deadline - preparedAt then remaining else auth.deadline - preparedAt;
      if remaining <= 0 {
        PutLocked(c.id, jobs[c.id].(stage := Some(auth)));
        calls := calls[n := Renewed(c.id, StageDispatchExpired)];
        return;
      }
      var request := ActionRequest(auth.stageId, c.operation, Start, auth.params, preparedAt, preparedAt + remaining,
          Some(c.id), false);
      PublishStage(n, auth, request, Lease(auth.deadline, serverTime, c.started, preparedAt, preparedAt), save);
    }

    method PublishStage(n: nat, auth: StageAuthorization, request: ActionRequest, l: Lease, save: Write)
      requires n in calls && calls[n].Renewing? && calls[n].id in jobs
      modifies this
      ensures Now() == StagePrepared(old(Now()), n, auth, request, l, save)
    {
      var c := calls[n];
      var staged := jobs[c.id].(stage := Some(auth));
      ghost var before := jobs;
      PutLocked(c.id, staged.(stageRequest := Some(request), stageLease := l));
      var ok := SaveJobsLocked(save);
      if !ok {
        PutLocked(c.id, staged.(stageRequest := None));
        assert jobs == before[c.id := staged.(stageRequest := None)];
        calls := calls[n := Renewed(c.id, StageJournalUnavailable)];
        return;
      }
      calls := calls[n := Renewed(c.id, NoCode)];
    }

    /** The renewal ends; without a durable stage request its start is reported as not attempted. */
    method EndRenewal(n: nat, save: Write)
      requires n in calls && calls[n].Renewed? && calls[n].id in jobs
      modifies this
      ensures Now() == RenewEnd(old(Now()), n, save)
    {
      hide FailUnattempted;
      var c := calls[n];
      var j := jobs[c.id].(renewing := false);
      PutLocked(c.id, j);
      calls := calls - {n};
      FailUnattemptedStageLocked(c.id, j, c.code, save);
    }

    /** The controller's acknowledgements are written into the jobs one by one. */
    method AcknowledgeLocked(acks: set<JobId>, committed: set<JobId>, save: Write)
      modifies this
      ensures Now() == SaveJobs(old(Now()).(jobs := Acknowledged(old(Now()), acks, committed)), save)
    {
      hide PartlyAcked, Acknowledged, SaveJobs;
      ghost var w := Now();
      var todo := jobs.Keys;
      AckEnds(w, acks, committed);
      assert w.jobs.Keys - todo == {};
      while todo != {}
        invariant todo <= w.jobs.Keys && Now() == w.(jobs := jobs)
            && jobs == PartlyAcked(w.jobs, acks, committed, w.jobs.Keys - todo)
        decreases |todo|
      {
        var id :| id in todo;
        AckStep(w, acks, committed, w.jobs.Keys - todo, id);
        assert w.jobs.Keys - (todo - {id}) == (w.jobs.Keys - todo) + {id};
        AcknowledgeOne(id, id in acks, id in committed);
        todo := todo - {id};
      }
      assert w.jobs.Keys - todo == w.jobs.Keys;
      var saved := SaveJobsLocked(save);
    }

    method AcknowledgeOne(id: JobId, acked: bool, committed: bool)
      requires id in jobs
      modifies this`jobs
      ensures jobs == old(jobs)[id := AckedJob(old(jobs)[id], acked, committed)]
    {
      var j := jobs[id];
      if acked {
        j := j.(acked := true);
      }
      if AwaitsStart(j) && !j.renewalAttempted {
        j := j.(snapshotAcked := committed);
      }
      jobs := jobs[id := j];
    }
  }
}
