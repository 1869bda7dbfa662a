/**
  How journals evolve: which rewrites keep a record answering for its request,
  and the shape every journalled record has.
*/
module BrokerJournal {
  import opened SparkTypes
  import opened BrokerRules
  import opened Broker

  /** The record stands for request `r` and will never let it be admitted again. */
  predicate Answers(a: Attempt, r: ActionRequest) {
    a.digest == Some(r) && a.stage != PreflightPending
  }

  /** Request `r` cannot be admitted any more: it is journalled, or its lease is over. */
  predicate Covered(j: Journal, r: ActionRequest, now: Time) {
    (r.jobId in j.attempts && Answers(j.attempts[r.jobId], r)) || r.deadline <= now
  }

  /** Shape of the record under key `k`: a request with its own id and a short lease, or the remainder of a record
      that was pruned while its call was still waiting. */
  predicate Shaped(k: JobId, a: Attempt) {
    || (&& a.digest == Some(a.request) && a.request.jobId == k && a.request.operationId != ""
        && a.request.deadline <= a.at + DISPATCH_LEASE + 5 * SECOND)
    || (a.digest.None? && a.request == ZERO_REQUEST)
  }

  ghost predicate ShapedJournal(j: Journal) {
    forall k :: k in j.attempts ==> Shaped(k, j.attempts[k])
  }

  predicate Ahead(r: RuntimeProfile, r': RuntimeProfile) {
    r'.generation > r.generation || (r'.generation == r.generation && r'.identity == r.identity)
  }

  /** Fencing generations only move on, and a generation keeps its identity. */
  ghost predicate Forward(j: Journal, j': Journal) {
    forall id :: Ahead(RuntimeOf(j, id), RuntimeOf(j', id))
  }

  lemma ForwardTransitive(j: Journal, j': Journal, j'': Journal)
    requires Forward(j, j') && Forward(j', j'')
    ensures Forward(j, j'')
  {
    forall id
      ensures Ahead(RuntimeOf(j, id), RuntimeOf(j'', id))
    {
      assert Ahead(RuntimeOf(j, id), RuntimeOf(j', id)) && Ahead(RuntimeOf(j', id), RuntimeOf(j'', id));
    }
  }

  lemma ObserveForward(j: Journal, p: Profile, i: Instance, now: Time)
    ensures Forward(j, Observe(j, p, i, now)) && Observe(j, p, i, now).attempts == j.attempts
    ensures RuntimeOf(Observe(j, p, i, now), p.id).identity == i.identity
  {
  }

  /** Every record that answers for a request still does, unless that request has expired; and fencing moves forward. */
  ghost predicate KeepsRecords(j: Journal, j': Journal, now: Time) {
    && Forward(j, j')
    && forall k :: k in j.attempts && j.attempts[k].digest.Some? && j.attempts[k].stage != PreflightPending ==>
      || (k in j'.attempts && j'.attempts[k].digest == j.attempts[k].digest && j'.attempts[k].stage != PreflightPending)
      || j.attempts[k].digest.value.deadline <= now
  }

  predicate SameRecord(a: Attempt, a': Attempt) {
    a'.request == a.request && a'.digest == a.digest && a'.at == a.at
        && (a'.stage == PreflightPending ==> a.stage == PreflightPending)
  }

  /** The same records, rewritten in place. */
  ghost predicate Rewrites(j: Journal, j': Journal) {
    && Forward(j, j')
    && j'.attempts.Keys == j.attempts.Keys
    && forall k :: k in j.attempts ==> SameRecord(j.attempts[k], j'.attempts[k])
  }

  lemma CoveredKept(j: Journal, j': Journal, r: ActionRequest, now: Time)
    requires KeepsRecords(j, j', now) && Covered(j, r, now)
    ensures Covered(j', r, now)
  {
  }

  lemma KeepsTransitive(j: Journal, j': Journal, j'': Journal, now: Time)
    requires KeepsRecords(j, j', now) && KeepsRecords(j', j'', now)
    ensures KeepsRecords(j, j'', now)
  {
    ForwardTransitive(j, j', j'');
  }

  lemma RewritesKeep(j: Journal, j': Journal, now: Time)
    requires Rewrites(j, j')
    ensures KeepsRecords(j, j', now)
    ensures ShapedJournal(j) ==> ShapedJournal(j')
  {
    forall k | k in j'.attempts && ShapedJournal(j)
      ensures Shaped(k, j'.attempts[k])
    {
      assert Shaped(k, j.attempts[k]) && SameRecord(j.attempts[k], j'.attempts[k]);
    }
    forall k | k in j.attempts
      ensures SameRecord(j.attempts[k], j'.attempts[k])
    {
    }
  }

  lemma RewritesTransitive(j: Journal, j': Journal, j'': Journal)
    requires Rewrites(j, j') && Rewrites(j', j'')
    ensures Rewrites(j, j'')
  {
    ForwardTransitive(j, j', j'');
    forall k | k in j.attempts
      ensures SameRecord(j.attempts[k], j''.attempts[k])
    {
      assert SameRecord(j.attempts[k], j'.attempts[k]) && SameRecord(j'.attempts[k], j''.attempts[k]);
    }
  }

  lemma CancelForStopRewrites(j: Journal, id: ProfileId)
    ensures Rewrites(j, CancelForStop(j, id))
  {
  }

  lemma LinkStartsRewrites(j: Journal, stop: ActionRequest, i: Instance)
    ensures Rewrites(j, LinkStarts(j, stop, i))
  {
  }

  lemma UndoLinksRewrites(j: Journal, before: Journal, r: ActionRequest, i: Instance)
    ensures Rewrites(j, UndoLinks(j, before, r, i))
  {
  }

  lemma FinishStoppedStartsRewrites(j: Journal, stop: Attempt)
    ensures Rewrites(j, FinishStoppedStarts(j, stop))
  {
  }

  /** In a shaped journal the parent is stored back under its own id. */
  lemma FinishParentRewrites(j: Journal, stage: Attempt)
    requires ShapedJournal(j)
    requires stage.request == ZERO_REQUEST || stage.request.operationId != ""
    ensures Rewrites(j, FinishParent(j, stage))
  {
    if ParentAwaits(j, stage) {
      var k := stage.request.parentJobId.value;
      assert Shaped(k, j.attempts[k]);
      assert j.attempts[k].request.jobId == k;
    }
  }

  lemma PruneKeeps(j: Journal, now: Time, later: Time)
    requires ShapedJournal(j) && now <= later
    ensures KeepsRecords(j, Prune(j, now), later) && ShapedJournal(Prune(j, now))
  {
    forall k | k in j.attempts && j.attempts[k].digest.Some? && k !in Prune(j, now).attempts
      ensures j.attempts[k].digest.value.deadline <= later
    {
      assert Shaped(k, j.attempts[k]);
      assert Prunable(j.attempts[k], now);
    }
  }

  lemma ReconcileSeenRewrites(j: Journal, session: string, a: Attempt, p: Profile, i: Instance, now: Time)
    requires ShapedJournal(j) && a.request.jobId in j.attempts && j.attempts[a.request.jobId] == a
    requires a.request != ZERO_REQUEST && a.stage != PreflightPending
    ensures Rewrites(j, ReconcileSeen(j, session, a, p, i, now).0)
    ensures SameRecord(a, ReconcileSeen(j, session, a, p, i, now).1)
  {
    assert Shaped(a.request.jobId, a);
    if a.stoppedBy.Some? {
      if a.stoppedBy.value in j.attempts {
        FinishStoppedStartsRewrites(j, j.attempts[a.stoppedBy.value]);
      }
    } else if a.request.action == Start && i.state == Running {
      FinishParentRewrites(j, ReconcileStarted(j, session, a, p, i, now).1);
    } else if a.request.action == Stop && ShutdownComplete(p, i) {
      FinishStoppedStartsRewrites(j, ReconcileShutdown(j, session, a, p, i, now).1);
    }
  }

  /** Reconciliation rewrites records, and hands back the reconciled record with its identity unchanged. */
  lemma ReconcileRewrites(j: Journal, session: string, a: Attempt, p: Profile, i: Instance, now: Time)
    requires ShapedJournal(j) && a.request.jobId in j.attempts && j.attempts[a.request.jobId] == a
    requires a.request != ZERO_REQUEST && a.stage != PreflightPending
    ensures Rewrites(j, Reconcile(j, session, a, p, i, now).0)
    ensures SameRecord(a, Reconcile(j, session, a, p, i, now).1)
  {
    hide ReconcileSeen;
    var seen := Observe(j, p, i, now);
    ObserveForward(j, p, i, now);
    ReconcileSeenRewrites(seen, session, a, p, i, now);
    RewritesTransitive(j, seen, Reconcile(j, session, a, p, i, now).0);
  }
}
