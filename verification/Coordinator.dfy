/**
  The broker's coordinator as the object it is (`internal/spark/control.go`):
  its journal maps, tokens and pending starts are updated in place, by loops over
  the records, inside the critical sections of `Execute`.  Every method is tied
  to the section of the state machine it carries out.
*/
module Coordinator {
  import opened SparkTypes
  import opened BrokerRules
  import opened ExistingRules
  import opened Broker

  // ---------------------------------------------------------------- one pass over the records

  /** The records of `done` rewritten, the others as they were. */
  function Partly(attempts: map<JobId, Attempt>, rewritten: map<JobId, Attempt>, done: set<JobId>): map<JobId, Attempt>
    requires rewritten.Keys == attempts.Keys
  {
    map k | k in attempts :: if k in done then rewritten[k] else attempts[k]
  }

  lemma PartlyStep(attempts: map<JobId, Attempt>, rewritten: map<JobId, Attempt>, done: set<JobId>, k: JobId)
    requires rewritten.Keys == attempts.Keys && k in attempts && k !in done
    ensures Partly(attempts, rewritten, done)[k] == attempts[k]
    ensures Partly(attempts, rewritten, done)[k := rewritten[k]] == Partly(attempts, rewritten, done + {k})
    ensures rewritten[k] == attempts[k] ==> Partly(attempts, rewritten, done + {k}) == Partly(attempts, rewritten, done)
  {
  }

  lemma PartlyEnds(attempts: map<JobId, Attempt>, rewritten: map<JobId, Attempt>)
    requires rewritten.Keys == attempts.Keys
    ensures Partly(attempts, rewritten, {}) == attempts && Partly(attempts, rewritten, attempts.Keys) == rewritten
  {
  }

  /** The starts an admitted stop binds, with the stop each was bound to before. */
  function Bound(attempts: map<JobId, Attempt>, stop: ActionRequest, i: Instance): map<JobId, Option<JobId>> {
    map k | k in attempts && BoundByStop(attempts[k], stop, i) :: attempts[k].stoppedBy
  }

  /** The links remembered so far, with the records of `todo` still to be looked at. */
  function BoundBut(attempts: map<JobId, Attempt>, todo: set<JobId>, stop: ActionRequest, i: Instance): map<JobId,
      Option<JobId>> {
    map k | k in attempts && k !in todo && BoundByStop(attempts[k], stop, i) :: attempts[k].stoppedBy
  }

  /** Looking at one more record adds its link when the stop binds it, and nothing else. */
  lemma BoundStep(attempts: map<JobId, Attempt>, stop: ActionRequest, i: Instance, todo: set<JobId>, k: JobId)
    requires k in attempts && k in todo
    ensures var seen := BoundBut(attempts, todo, stop, i);
            BoundBut(attempts, todo - {k}, stop, i) == if BoundByStop(attempts[k], stop, i)
                then seen[k := attempts[k].stoppedBy] else seen
  {
    hide BoundByStop;
  }

  lemma BoundEnds(attempts: map<JobId, Attempt>, stop: ActionRequest, i: Instance)
    ensures BoundBut(attempts, attempts.Keys, stop, i) == map[]
        && BoundBut(attempts, {}, stop, i) == Bound(attempts, stop, i)
  {
    hide BoundByStop;
  }

  lemma LinkedAt(j: Journal, stop: ActionRequest, i: Instance, k: JobId)
    requires k in j.attempts
    ensures var linked := LinkStarts(j, stop, i).attempts;
            && linked.Keys == j.attempts.Keys
            && linked[k] == if BoundByStop(j.attempts[k], stop, i) then j.attempts[k].(stoppedBy := Some(stop.jobId))
                else j.attempts[k]
  {
    hide BoundByStop;
  }

  /** One turn of the linking loop: the records and the remembered links, both one record further. */
  lemma LinkStep(j: Journal, stop: ActionRequest, i: Instance, todo: set<JobId>, k: JobId)
    requires k in j.attempts && k in todo && LinkStarts(j, stop, i).attempts.Keys == j.attempts.Keys
    ensures var linked := LinkStarts(j, stop, i).attempts; var seen := BoundBut(j.attempts, todo, stop, i);
        var all := j.attempts;
            var before, after := Partly(all, linked, all.Keys - todo), Partly(all, linked, all.Keys - (todo - {k}));
            && k in before && before[k] == all[k]
            && after == (if BoundByStop(all[k], stop, i) then before[k := all[k].(stoppedBy := Some(stop.jobId))]
                else before)
            && BoundBut(all, todo - {k}, stop, i) == (if BoundByStop(all[k], stop, i) then seen[k := all[k].stoppedBy]
                else seen)
  {
    PartlyStep(j.attempts, LinkStarts(j, stop, i).attempts, j.attempts.Keys - todo, k);
    hide BoundByStop, Bound, BoundBut, LinkStarts;
    BoundStep(j.attempts, stop, i, todo, k);
    LinkedAt(j, stop, i, k);
    assert j.attempts.Keys - (todo - {k}) == (j.attempts.Keys - todo) + {k};
  }

  lemma FinishedAt(j: Journal, stop: Attempt, k: JobId)
    requires k in j.attempts && ProvenStop(stop)
    ensures var closed := FinishStoppedStarts(j, stop).attempts;
            && closed.Keys == j.attempts.Keys
            && closed[k] == if ResolvedByStop(j.attempts[k], stop)
                then j.attempts[k].(stage := Done, receipt := StoppedStartReceipt(j.attempts[k], stop))
                else j.attempts[k]
  {
    hide StoppedStartReceipt, ResolvedByStop;
  }

  /** One turn of the closing loop. */
  lemma FinishStep(j: Journal, stop: Attempt, todo: set<JobId>, k: JobId)
    requires k in j.attempts && k in todo && ProvenStop(stop)
        && FinishStoppedStarts(j, stop).attempts.Keys == j.attempts.Keys
    ensures var closed := FinishStoppedStarts(j, stop).attempts; var all := j.attempts;
            var before, after := Partly(all, closed, all.Keys - todo), Partly(all, closed, all.Keys - (todo - {k}));
            && k in before && before[k] == all[k]
            && after == if ResolvedByStop(all[k], stop) then before[k :=
                all[k].(stage := Done, receipt := StoppedStartReceipt(all[k], stop))] else before
  {
    PartlyStep(j.attempts, FinishStoppedStarts(j, stop).attempts, j.attempts.Keys - todo, k);
    hide ProvenStop, StoppedStartReceipt, ResolvedByStop, FinishStoppedStarts;
    FinishedAt(j, stop, k);
    assert j.attempts.Keys - (todo - {k}) == (j.attempts.Keys - todo) + {k};
  }

  /** What taking links back does to one record, in terms of the remembered links. */
  lemma RestoredAt(j: Journal, before: map<JobId, Attempt>, stop: ActionRequest, i: Instance, k: JobId)
    requires k in j.attempts
    ensures var restored := RestoreLinks(j, before, stop, i).attempts; var previous := Bound(before, stop, i);
            && restored.Keys == j.attempts.Keys
            && restored[k] == if k in previous && j.attempts[k].stoppedBy == Some(stop.jobId)
                then j.attempts[k].(stoppedBy := previous[k]) else j.attempts[k]
  {
  }

  lemma RestoredKeys(j: Journal, before: map<JobId, Attempt>, stop: ActionRequest, i: Instance)
    ensures RestoreLinks(j, before, stop, i).attempts.Keys == j.attempts.Keys
    ensures RestoreLinks(j, before, stop, i) == j.(attempts := RestoreLinks(j, before, stop, i).attempts)
  {
  }

  /** Records that were not bound need no rewriting. */
  lemma UnboundStay(j: Journal, before: map<JobId, Attempt>, stop: ActionRequest, i: Instance)
    ensures var restored := RestoreLinks(j, before, stop, i).attempts;
            restored.Keys == j.attempts.Keys && Partly(j.attempts, restored,
                j.attempts.Keys - Bound(before, stop, i).Keys) == j.attempts
  {
    hide RestoreLinks, Bound;
    RestoredKeys(j, before, stop, i);
    forall k | k in j.attempts && k !in Bound(before, stop, i)
      ensures RestoreLinks(j, before, stop, i).attempts[k] == j.attempts[k]
    {
      RestoredAt(j, before, stop, i, k);
    }
  }

  /** Recording the stop itself changes nothing about which starts it binds. */
  lemma BoundBefore(attempts: map<JobId, Attempt>, stop: ActionRequest, i: Instance, a: Attempt)
    requires stop.action == Stop && a.request == stop && (stop.jobId !in attempts
        || attempts[stop.jobId].stage == PreflightPending)
    ensures Bound(attempts[stop.jobId := a], stop, i) == Bound(attempts, stop, i)
  {
  }

  // ---------------------------------------------------------------- what an admitted stop cancels, loop by loop

  /** After the first loop: the starts in preflight are cancelled. */
  function PreflightsCancelled(attempts: map<JobId, Attempt>, id: ProfileId): map<JobId, Attempt> {
    map k | k in attempts :: if CancellablePreflight(attempts[k], id) then CancelledPreflight(attempts[k])
        else attempts[k]
  }

  predicate OpenChild(a: Attempt, parent: JobId) {
    a.request.parentJobId == Some(parent) && a.stage != Done
  }

  function Superseded(a: Attempt): Attempt {
    a.(stage := Done, receipt := SupersededReceipt(a.receipt))
  }

  /** The second loop after the records of `done`: their superseded restarts are closed, with the open starts linked
      to them. */
  function ParentsClosed(attempts: map<JobId, Attempt>, done: set<JobId>, id: ProfileId): map<JobId, Attempt> {
    map k | k in attempts ::
      var a := attempts[k];
      if k in done && SupersededParent(a, id) then Superseded(a)
      else if a.request.parentJobId.Some? && a.request.parentJobId.value in done && SupersededChild(attempts, a, id)
          then CancelledPreflight(a)
      else a
  }

  /** The inner loop: the open starts linked to `parent`. */
  function ChildrenClosed(attempts: map<JobId, Attempt>, parent: JobId): map<JobId, Attempt> {
    map k | k in attempts :: if OpenChild(attempts[k], parent) then CancelledPreflight(attempts[k]) else attempts[k]
  }

  lemma CloseParent(attempts: map<JobId, Attempt>, done: set<JobId>, id: ProfileId, k: JobId)
    requires RestartsUnlinked(attempts) && k in attempts && k !in done
    ensures var sofar := ParentsClosed(attempts, done, id);
            && (SupersededParent(sofar[k], id) <==> SupersededParent(attempts[k], id))
            && (SupersededParent(sofar[k], id) ==>
                 ChildrenClosed(sofar[k := Superseded(sofar[k])], k) == ParentsClosed(attempts, done + {k}, id))
            && (!SupersededParent(sofar[k], id) ==> sofar == ParentsClosed(attempts, done + {k}, id))
  {
    var sofar, then_ := ParentsClosed(attempts, done, id), ParentsClosed(attempts, done + {k}, id);
    if SupersededParent(attempts[k], id) {
      assert attempts[k].request.parentJobId.None?;
      var closed := ChildrenClosed(sofar[k := Superseded(sofar[k])], k);
      forall s | s in attempts
        ensures closed[s] == then_[s]
      {
        assert s != k ==> (attempts[s].request.action == Restart ==> attempts[s].request.parentJobId.None?);
      }
      assert closed == then_;
    } else {
      assert sofar == then_;
    }
  }

  lemma LoopsCancelAt(attempts: map<JobId, Attempt>, id: ProfileId, k: JobId)
    requires k in attempts
    ensures var first := PreflightsCancelled(attempts, id);
        ParentsClosed(first, first.Keys, id)[k] == AfterStopAdmission(attempts, attempts[k], id)
  {
    var first := PreflightsCancelled(attempts, id);
    assert forall p :: p in attempts ==> (SupersededParent(first[p], id) <==> SupersededParent(attempts[p], id));
  }

  lemma LoopsCancel(attempts: map<JobId, Attempt>, id: ProfileId)
    requires RestartsUnlinked(attempts)
    ensures var first := PreflightsCancelled(attempts, id);
            && RestartsUnlinked(first) && ParentsClosed(first, {}, id) == first && first.Keys == attempts.Keys
            && ParentsClosed(first, first.Keys, id) == map k | k in attempts :: AfterStopAdmission(attempts,
                attempts[k], id)
  {
    hide AfterStopAdmission, SupersededParent, CancellablePreflight, SupersededChild;
    var first := PreflightsCancelled(attempts, id);
    var last := ParentsClosed(first, first.Keys, id);
    forall k | k in attempts
      ensures last[k] == AfterStopAdmission(attempts, attempts[k], id)
    {
      LoopsCancelAt(attempts, id, k);
    }
    assert ParentsClosed(first, {}, id) == first;
  }

  class Coordinator {
    var policy: Policy
    var running: bool
    var session: string
    var epoch: string
    var policyHash: Option<Policy>
    var attempts: map<JobId, Attempt>
    var profiles: map<ProfileId, RuntimeProfile>
    var disk: Journal
    var tokens: map<ProfileId, nat>
    var pending: map<ProfileId, PendingStart>
    var threads: map<nat, Thread>
    var nextThread: nat
    var now: Time
    var live: set<ProfileId>
    var acts: seq<Act>
    var published: set<Publication>

    function Mem(): Journal
      reads this
    {
      Journal(epoch, policyHash, attempts, profiles)
    }

    function Now(): Broker
      reads this
    {
      Broker(policy, running, session, Mem(), disk, tokens, pending, threads, nextThread, now, live, acts, published)
    }

    // -------------------------------------------------------------- records and profiles

    method SaveLocked(w: Write) returns (ok: bool)
      modifies this`disk
      ensures Now() == Saved(old(Now()), w) && (ok <==> w == Synced)
    {
      if w != FailedOld {
        disk := Mem();
      }
      ok := w == Synced;
    }

    method PutLocked(id: JobId, a: Attempt)
      modifies this`attempts
      ensures Now() == Put(old(Now()), id, a)
    {
      attempts := attempts[id := a];
    }

    method ObserveLocked(p: Profile, i: Instance, at: Time) returns (r: RuntimeProfile)
      modifies this`profiles
      ensures Mem() == Observe(old(Mem()), p, i, at) && r == RuntimeOf(Mem(), p.id)
    {
      r := RuntimeOf(Mem(), p.id);
      if r.identity != i.identity {
        r := r.(generation := r.generation + 1, identity := i.identity);
      }
      r := r.(state := i.state);
      if p.kind == ExistingCoordinator {
        if i.backend.Some? {
          r := r.(backendObservedAtMs := i.backend.value.observedAtMs);
        }
        r := r.(reserved := false, startingAt := ZERO_TIME, reservationUntil := ZERO_TIME);
        profiles := profiles[p.id := r];
        return;
      }
      if i.state == Stopped || i.state == Failed {
        r := r.(reserved := !ShutdownComplete(p, i));
        if ShutdownComplete(p, i) && r.reservationUntil != ZERO_TIME && at < r.reservationUntil {
          r := r.(reserved := true);
        }
        r := r.(startingAt := ZERO_TIME);
      }
      profiles := profiles[p.id := r];
    }

    /** Finished records older than a day go, once there are 1024 records. */
    method PruneLocked(at: Time)
      modifies this`attempts
      ensures Mem() == Prune(old(Mem()), at)
    {
      if |attempts| < 1024 {
        return;
      }
      var todo := attempts.Keys;
      ghost var all := attempts;
      while todo != {}
        invariant todo <= attempts.Keys <= all.Keys
        invariant forall k :: k in attempts ==> attempts[k] == all[k]
        invariant forall k :: k in all && k !in todo ==> (k in attempts <==> !Prunable(all[k], at))
        decreases |todo|
      {
        var k :| k in todo;
        if attempts[k].stage == Done && attempts[k].at < at - DAY {
          attempts := attempts - {k};
        }
        todo := todo - {k};
      }
      assert attempts == Prune(old(Mem()), at).attempts;
    }

    /** A proven stop closes the starts bound to it. */
    method FinishStoppedStartsLocked(stop: Attempt)
      modifies this`attempts
      ensures Mem() == FinishStoppedStarts(old(Mem()), stop)
    {
      if !ProvenStop(stop) {
        return;
      }
      ghost var j, all, closed := Mem(), attempts, FinishStoppedStarts(Mem(), stop).attempts;
      assert closed.Keys == all.Keys && FinishStoppedStarts(j, stop) == j.(attempts := closed);
      hide ProvenStop, StoppedStartReceipt, ResolvedByStop, FinishStoppedStarts, Partly;
      var todo := attempts.Keys;
      PartlyEnds(all, closed);
      assert all.Keys - todo == {};
      while todo != {}
        invariant todo <= all.Keys && attempts == Partly(all, closed, all.Keys - todo)
        decreases |todo|
      {
        var k :| k in todo;
        FinishStep(j, stop, todo, k);
        var start := attempts[k];
        if ResolvedByStop(start, stop) {
          attempts := attempts[k := start.(stage := Done, receipt := StoppedStartReceipt(start, stop))];
        }
        todo := todo - {k};
      }
      assert all.Keys - todo == all.Keys;
    }

    method FinishParentLocked(stage: Attempt)
      modifies this`attempts
      ensures Mem() == FinishParent(old(Mem()), stage)
    {
      if stage.request.parentJobId.None? || stage.stage != Done || stage.request.parentJobId.value !in attempts {
        return;
      }
      var parent := attempts[stage.request.parentJobId.value];
      if parent.stage != StartAttempted || parent.request.operationId != stage.request.operationId
          || parent.request.params.profileId != stage.request.params.profileId {
        return;
      }
      attempts := attempts[parent.request.jobId := parent.(stage := Done, receipt := ParentReceipt(parent, stage))];
    }

    /** The admitted stop is written into every start it will resolve; the former links are handed back. */
    method LinkStartsLocked(r: ActionRequest, i: Instance) returns (previous: map<JobId, Option<JobId>>)
      modifies this`attempts
      ensures Mem() == LinkStarts(old(Mem()), r, i) && previous == Bound(old(attempts), r, i)
    {
      ghost var j, all, linked := Mem(), attempts, LinkStarts(Mem(), r, i).attempts;
      assert linked.Keys == all.Keys && LinkStarts(j, r, i) == j.(attempts := linked);
      hide BoundByStop, Bound, BoundBut, LinkStarts, Partly;
      var todo := attempts.Keys;
      previous := map[];
      PartlyEnds(all, linked);
      BoundEnds(all, r, i);
      assert all.Keys - todo == {};
      while todo != {}
        invariant todo <= all.Keys && attempts == Partly(all, linked, all.Keys - todo)
        invariant previous == BoundBut(all, todo, r, i)
        decreases |todo|
      {
        var k :| k in todo;
        LinkStep(j, r, i, todo, k);
        var start := attempts[k];
        if BoundByStop(start, r, i) {
          previous := previous[k := start.stoppedBy];
          attempts := attempts[k := start.(stoppedBy := Some(r.jobId))];
        }
        todo := todo - {k};
      }
      assert all.Keys - todo == all.Keys;
    }

    /** A stop that was taken back gives every start the link it had before. */
    method RestoreStartLinksLocked(stop: ActionRequest, previous: map<JobId, Option<JobId>>, ghost before: map<JobId,
                                   Attempt>, ghost i: Instance)
      requires previous == Bound(before, stop, i)
      modifies this`attempts
      ensures Mem() == RestoreLinks(old(Mem()), before, stop, i)
    {
      hide RestoreLinks, Bound, Partly;
      ghost var j, all, restored := Mem(), attempts, RestoreLinks(Mem(), before, stop, i).attempts;
      RestoredKeys(j, before, stop, i);
      UnboundStay(j, before, stop, i);
      var todo := previous.Keys;
      ghost var done: set<JobId> := all.Keys - todo;
      while todo != {}
        invariant todo <= previous.Keys && done == all.Keys - todo && attempts == Partly(all, restored, done)
            && attempts.Keys == all.Keys
        decreases |todo|
      {
        var k :| k in todo;
        if k in attempts {
          PartlyStep(all, restored, done, k);
          RestoredAt(j, before, stop, i, k);
          assert all.Keys - (todo - {k}) == done + {k};
          done := done + {k};
          if attempts[k].stoppedBy == Some(stop.jobId) {
            attempts := attempts[k := attempts[k].(stoppedBy := previous[k])];
          }
        } else {
          assert all.Keys - (todo - {k}) == done;
        }
        todo := todo - {k};
      }
      assert done == all.Keys;
      PartlyEnds(all, restored);
    }

    /** Everything that waits on the profile of an admitted stop is cancelled. */
    method CancelForStopLocked(id: ProfileId)
      requires RestartsUnlinked(attempts)
      modifies this`attempts, this`profiles
      ensures Mem() == CancelForStop(old(Mem()), id)
    {
      hide AfterStopAdmission, PreflightsCancelled, ParentsClosed;
      LoopsCancel(attempts, id);
      CancelPreflightsLocked(id);
      SupersedeRestartsLocked(id);
      var rp := RuntimeOf(Mem(), id);
      profiles := profiles[id := rp.(reservationUntil := ZERO_TIME)];
    }

    method SupersedeRestartsLocked(id: ProfileId)
      requires RestartsUnlinked(attempts) && ParentsClosed(attempts, {}, id) == attempts
      modifies this`attempts
      ensures attempts == ParentsClosed(old(attempts), old(attempts).Keys, id)
    {
      hide SupersededParent, ParentsClosed, SupersededReceipt, ChildrenClosed;
      ghost var first := attempts;
      var todo := attempts.Keys;
      assert first.Keys - todo == {};
      while todo != {}
        invariant todo <= first.Keys == attempts.Keys && attempts == ParentsClosed(first, first.Keys - todo, id)
        decreases |todo|
      {
        var k :| k in todo;
        CloseParent(first, first.Keys - todo, id, k);
        assert first.Keys - (todo - {k}) == (first.Keys - todo) + {k};
        var parent := attempts[k];
        if SupersededParent(parent, id) {
          attempts := attempts[k := parent.(stage := Done, receipt := SupersededReceipt(parent.receipt))];
          CloseChildrenLocked(k);
        }
        todo := todo - {k};
      }
      assert first.Keys - todo == first.Keys;
    }

    method CancelPreflightsLocked(id: ProfileId)
      modifies this`attempts
      ensures attempts == PreflightsCancelled(old(attempts), id)
    {
      hide CancellablePreflight;
      ghost var all, cancelled := attempts, PreflightsCancelled(attempts, id);
      var todo := attempts.Keys;
      PartlyEnds(all, cancelled);
      assert all.Keys - todo == {};
      while todo != {}
        invariant todo <= all.Keys && attempts == Partly(all, cancelled, all.Keys - todo)
        decreases |todo|
      {
        var k :| k in todo;
        PartlyStep(all, cancelled, all.Keys - todo, k);
        assert all.Keys - (todo - {k}) == (all.Keys - todo) + {k};
        var start := attempts[k];
        if CancellablePreflight(start, id) {
          attempts := attempts[k := start.(stage := Done, receipt := Rejection(start.request, StartCancelledByStop))];
        }
        todo := todo - {k};
      }
      assert all.Keys - todo == all.Keys;
    }

    method CloseChildrenLocked(parent: JobId)
      modifies this`attempts
      ensures attempts == ChildrenClosed(old(attempts), parent) && attempts.Keys == old(attempts).Keys
    {
      ghost var all, closed := attempts, ChildrenClosed(attempts, parent);
      var todo := attempts.Keys;
      PartlyEnds(all, closed);
      assert all.Keys - todo == {};
      while todo != {}
        invariant todo <= all.Keys && attempts == Partly(all, closed, all.Keys - todo)
        decreases |todo|
      {
        var k :| k in todo;
        PartlyStep(all, closed, all.Keys - todo, k);
        assert all.Keys - (todo - {k}) == (all.Keys - todo) + {k};
        var stage := attempts[k];
        if stage.request.parentJobId == Some(parent) && stage.stage != Done {
          attempts := attempts[k := stage.(stage := Done, receipt := Rejection(stage.request, StartCancelledByStop))];
        }
        todo := todo - {k};
      }
      assert all.Keys - todo == all.Keys;
    }

    // -------------------------------------------------------------- validation and preflight

    method ValidateLocked(r: ActionRequest, p: Profile, i: Instance, at: Time) returns (refused: Option<Code>)
      modifies this`profiles
      ensures (Mem(), refused) == Validate(old(Mem()), policy, session, r, p, i, at)
    {
      var allowed := r.action in p.allowed;
      if r.action == Start && r.parentJobId.Some? {
        allowed := ParentAuthorizes(Mem(), r, p);
        if !allowed {
          return Some(LinkedStageNotAuthorized);
        }
        if !ParentFresh(attempts[r.parentJobId.value], at) {
          return Some(LinkedStageExpired);
        }
      }
      if !policy.enabled || p.observationOnly || p.kind == ConfiguredCatalog || !allowed {
        return Some(LocalActionNotApproved);
      }
      var wanted := session;
      if r.local {
        wanted := "local:" + epoch;
      }
      if r.params.controlEpoch != epoch || r.params.expectedAgentSession != wanted || wanted == ""
          || r.params.profileRevision != p.revision {
        return Some(AuthorityOrProfileDrift);
      }
      hide ObservedProfile, ShutdownComplete, LeaseValid;
      var current := ObserveLocked(p, i, at);
      if r.params.expectedGeneration != current.generation {
        return Some(GenerationDrift);
      }
      if r.action == Start && (i.state == Stopped || i.state == Failed) && !ShutdownComplete(p, i) {
        return Some(ServiceShutdownUnverified);
      }
      if r.action == Start && r.parentJobId.Some? && !ShutdownComplete(p, i) {
        return Some(RestartStoppedStageIdentityUnavailable);
      }
      if !LeaseValid(r, at) {
        return Some(DispatchExpired);
      }
      if r.action != Start && i.state != Stopped && !r.params.confirmDisruption {
        return Some(DisruptionConfirmationRequired);
      }
      return None;
    }

    /** Memory, exclusion groups and port; conflicting profiles are inspected afresh. */
    method PreflightLocked(p: Profile, replace: bool, memory: nat, portFree: bool, probes: map<ProfileId, Probe>,
                           at: Time) returns (refused: Option<Code>)
      modifies this`profiles
      ensures (Mem(), refused) == Preflight(old(Mem()), policy, p, replace, memory, portFree, probes, at)
    {
      if p.requiredMemory == 0 && p.blockUnknownMemory {
        return Some(MemoryEstimateUnknown);
      }
      var need := (p.requiredMemory + p.osHeadroom) % WORD;
      if need < p.requiredMemory {
        return Some(MemoryEstimateInvalid);
      }
      if !replace && need > 0 && (memory == 0 || memory < need) {
        return Some(InsufficientMemory);
      }
      refused := PreflightOthersLocked(p, replace, need, memory, probes, at);
      if refused.None? && p.usesPort && !replace && !portFree {
        return Some(LaunchPortBusy);
      }
    }

    method PreflightOthersLocked(p: Profile, replace: bool, need: nat, memory: nat, probes: map<ProfileId, Probe>,
                                 at: Time) returns (refused: Option<Code>)
      modifies this`profiles
      ensures (Mem(), refused) == PreflightOthers(old(Mem()), policy.profiles, p, replace, need, memory, probes, at)
    {
      hide ObservedProfile, Conflicts;
      var available, n := memory, 0;
      assert policy.profiles[0..] == policy.profiles;
      while n < |policy.profiles|
        invariant 0 <= n <= |policy.profiles| && 0 <= available
        invariant PreflightOthers(old(Mem()), policy.profiles, p, replace, need, memory, probes, at) ==
                  PreflightOthers(Mem(), policy.profiles[n..], p, replace, need, available, probes, at)
      {
        var other := policy.profiles[n];
        assert policy.profiles[n..][0] == other && policy.profiles[n..][1..] == policy.profiles[n + 1..];
        n := n + 1;
        if other.id != p.id {
          var r := RuntimeOf(Mem(), other.id);
          var conflict := Conflicts(p, other);
          if conflict {
            var probe := ProbeOf(probes, other.id);
            if probe.ProbeFailed? {
              return Some(ExclusionStateUnknown);
            }
            r := ObserveLocked(other, probe.instance, at);
          }
          if conflict && Occupied(r) {
            return Some(ExclusionGroupBusy);
          }
          if r.reserved && other.requiredMemory > 0 && !replace {
            if other.requiredMemory > available || need > available - other.requiredMemory {
              return Some(MemoryReserved);
            }
            available := available - other.requiredMemory;
          }
        }
      }
      assert policy.profiles[n..] == [];
      return None;
    }

    method RejectPreflightLocked(r: ActionRequest, code: Code, w: Write)
      modifies this`attempts, this`disk
      ensures Now() == RejectPreflight(old(Now()), r, code, w)
    {
      var a := AttemptOf(Mem(), r.jobId);
      if a.stage == PreflightPending {
        PutLocked(r.jobId, a.(stage := Done, receipt := Rejection(r, code)));
        var saved := SaveLocked(w);
      }
    }

    // -------------------------------------------------------------- the final admission and the effect

    method EvidenceLocked(r: ActionRequest, p: Profile, i: Instance, status: Status, stage: ReceiptStage, at: Time)
        returns (receipt: Receipt)
      ensures receipt == EvidenceOf(Now(), r, p, i, status, stage, at)
    {
      receipt := EvidenceReceipt(Mem(), session, r, p, i, status, stage, at);
    }

    /** The supervisor call, and what is recorded of it. */
    method EffectLocked(t: nat, r: ActionRequest, p: Profile, i: Instance, a: Attempt, validatedAt: Time,
                        f: FinalInputs) returns (reply: Option<Receipt>)
      modifies this
      ensures Outcome(Now(), reply) == Fire(old(Now()), t, r, p, i, a, validatedAt, f)
    {
      hide EvidenceReceipt, Observe, FinishParent;
      var action := if r.action == Restart then Stop else r.action;
      acts := acts + [Effect(r, f.effectAt, t, action, p, validatedAt, f.definition, policy, session, Mem(), disk)];
      if action == Start && f.comesUp {
        live := live + {p.id};
      }
      ghost var called := Now();
      assert called == Called(old(Now()), t, r, p, validatedAt, f);
      if f.effect.None? {
        reply := UnconfirmedLocked(r, p, i, a, f);
      } else {
        reply := ConfirmedLocked(t, r, p, f.effect.value, a, f);
      }
    }

    method UnconfirmedLocked(r: ActionRequest, p: Profile, i: Instance, a: Attempt, f: FinalInputs)
        returns (reply: Option<Receipt>)
      modifies this
      ensures Outcome(Now(), reply) == Unconfirmed(old(Now()), r, p, i, a, f)
    {
      hide EvidenceReceipt;
      var receipt := EvidenceLocked(r, p, i, StatusUnknown, SupervisorEffectUnconfirmed, f.effectAt);
      PutLocked(r.jobId, a.(receipt := receipt));
      var saved := SaveLocked(f.secondSave);
      reply := Some(receipt);
    }

    method ConfirmedLocked(t: nat, r: ActionRequest, p: Profile, after: Instance, a: Attempt, f: FinalInputs)
        returns (reply: Option<Receipt>)
      modifies this
      ensures Outcome(Now(), reply) == Confirmed(old(Now()), t, r, p, after, a, f)
    {
      hide EvidenceReceipt, Observe, FinishParent;
      var observed := ObserveLocked(p, after, f.effectAt);
      var receipt := EvidenceLocked(r, p, after, StatusRunning, SupervisorCallAccepted, f.effectAt);
      var accepted := a.(receipt := receipt);
      PutLocked(r.jobId, accepted);
      FinishParentLocked(accepted);
      var ok := SaveLocked(f.secondSave);
      if !ok {
        return Some(Rejection(r, JournalPostEffectUnavailable));
      }
      threads := threads[t := InTail(r, p, after)];
      return None;
    }

    /** The attempt is published; then the last look at the lease, then the effect. */
    method PublishLocked(t: nat, r: ActionRequest, p: Profile, i: Instance, a: Attempt, previous: map<JobId,
                         Option<JobId>>, validatedAt: Time, f: FinalInputs,
                         ghost before: Broker)
      returns (reply: Option<Receipt>)
      requires r.action == Stop ==> previous == Bound(before.mem.attempts, r, i)
      modifies this
      ensures Outcome(Now(), reply) == Published(Saved(old(Now()), f.firstSave), before.mem, t, r, p, i, a, validatedAt,
          f)
    {
      hide Fire, RestoreLinks, Bound;
      var ok := SaveLocked(f.firstSave);
      if !ok {
        attempts := attempts - {r.jobId};
        assert Now() == Drop(Saved(old(Now()), f.firstSave), r.jobId);
        if r.action == Stop {
          RestoreStartLinksLocked(r, previous, before.mem.attempts, i);
        }
        return Some(Rejection(r, JournalUnavailable));
      }
      if f.effectAt >= r.deadline {
        PutLocked(r.jobId, a.(stage := Done, receipt := Rejection(r, DispatchExpired)));
        if r.action == Stop {
          RestoreStartLinksLocked(r, previous, before.mem.attempts, i);
        }
        var saved := SaveLocked(f.secondSave);
        return Some(Rejection(r, if saved then DispatchExpired else JournalUnavailable));
      }
      reply := EffectLocked(t, r, p, i, a, validatedAt, f);
    }

    /** The attempt, the links of a stop, the advanced parent and the reservation go into the journal together. */
    method AdmitLocked(t: nat, r: ActionRequest, p: Profile, i: Instance, validatedAt: Time, f: FinalInputs)
        returns (reply: Option<Receipt>)
      requires r.jobId !in attempts || attempts[r.jobId].stage == PreflightPending
      modifies this
      ensures Outcome(Now(), reply) == Admit(old(Now()), t, r, p, i, validatedAt, f)
    {
      hide Published, AdmittedJournal, EffectAttempt;
      ghost var before := Now();
      var a, previous := JournalAttemptLocked(r, p, i, f.admitAt);
      reply := PublishLocked(t, r, p, i, a, previous, validatedAt, f, before);
    }

    method JournalAttemptLocked(r: ActionRequest, p: Profile, i: Instance, at: Time)
        returns (a: Attempt, previous: map<JobId, Option<JobId>>)
      requires r.jobId !in attempts || attempts[r.jobId].stage == PreflightPending
      modifies this`attempts, this`profiles
      ensures Mem() == AdmittedJournal(old(Now()), r, p, i, at) && a == EffectAttempt(old(Now()), r, p, i, at)
      ensures r.action == Stop ==> previous == Bound(old(attempts), r, i)
    {
      hide EvidenceReceipt, LinkStarts, BoundByStop, AdvanceParent, Reserve;
      var receipt := EvidenceLocked(r, p, i, StatusUnknown, EffectAttemptedReceipt, at);
      a := NewAttempt(r, EffectAttempted, i, receipt, at);
      PutLocked(r.jobId, a);
      previous := map[];
      if r.action == Stop {
        BoundBefore(old(attempts), r, i, a);
        previous := LinkStartsLocked(r, i);
      }
      AdvanceParentLocked(r);
      ReserveLocked(r, p.id, at);
    }

    method AdvanceParentLocked(r: ActionRequest)
      modifies this`attempts
      ensures Mem() == AdvanceParent(old(Mem()), r)
    {
      if r.parentJobId.Some? {
        var parent := AttemptOf(Mem(), r.parentJobId.value);
        attempts := attempts[r.parentJobId.value := parent.(stage := StartAttempted,
            receipt := parent.receipt.(status := StatusRunning, stage := RestartStartAttempted))];
      }
    }

    method ReserveLocked(r: ActionRequest, id: ProfileId, at: Time)
      modifies this`profiles
      ensures Mem() == Reserve(old(Mem()), r, id, at)
    {
      if r.action != Stop {
        var rp := RuntimeOf(Mem(), id);
        profiles := profiles[id := rp.(reserved := true, startingAt := at)];
      }
    }

    method FinalLocked(t: nat, r: ActionRequest, p: Profile, i: Instance, validatedAt: Time, f: FinalInputs)
        returns (reply: Option<Receipt>)
      requires r.jobId !in attempts || attempts[r.jobId].stage == PreflightPending
      modifies this
      ensures Outcome(Now(), reply) == FinalSection(old(Now()), t, r, p, i, validatedAt, f)
    {
      hide Admit, RejectPreflight;
      if p.usesSharedLock && !f.lockFree {
        return Some(Rejection(r, SharedEntrypointBusy));
      }
      if r.parentJobId.Some? && !ParentStopped(Mem(), r, p) {
        return Some(Rejection(r, LinkedStageNotAuthorized));
      }
      if f.definition != Some(p.definitionHash) {
        RejectPreflightLocked(r, EffectiveDefinitionDrift, f.firstSave);
        return Some(Rejection(r, EffectiveDefinitionDrift));
      }
      if f.admitAt >= r.deadline {
        RejectPreflightLocked(r, DispatchExpired, f.firstSave);
        return Some(Rejection(r, DispatchExpired));
      }
      reply := AdmitLocked(t, r, p, i, validatedAt, f);
    }

    // -------------------------------------------------------------- the first section of Execute

    /** An unresolved attempt is compared with the instance. */
    method ReconcileLocked(a: Attempt, p: Profile, i: Instance, at: Time) returns (closed: Attempt)
      modifies this`attempts, this`profiles
      ensures (Mem(), closed) == Reconcile(old(Mem()), session, a, p, i, at)
    {
      hide EvidenceReceipt, FinishStoppedStarts, FinishParent, ShutdownComplete, ObservedProfile;
      var observed := ObserveLocked(p, i, at);
      if a.stoppedBy.Some? {
        if a.stoppedBy.value in attempts {
          FinishStoppedStartsLocked(attempts[a.stoppedBy.value]);
          closed := AttemptOf(Mem(), a.request.jobId);
          if closed.stage == Done {
            return;
          }
        }
        return a.(receipt := EvidenceReceipt(Mem(), session, a.request, p, i, StatusUnknown, StopOutcomeUnconfirmed,
            at));
      }
      if a.request.action == Start && i.state == Running {
        closed := a.(stage := Done, receipt := EvidenceReceipt(Mem(), session, a.request, p, i, StatusSucceeded,
            ModelStarted, at));
        FinishParentLocked(closed);
        return;
      }
      if (a.request.action == Stop || a.request.action == Restart) && ShutdownComplete(p, i) {
        closed := ReconcileShutdownLocked(a, p, i, at);
        return;
      }
      return a.(receipt := EvidenceReceipt(Mem(), session, a.request, p, i, StatusUnknown, AttemptUnresolvedReceipt,
          at));
    }

    method ReconcileShutdownLocked(a: Attempt, p: Profile, i: Instance, at: Time) returns (closed: Attempt)
      modifies this`attempts, this`profiles
      ensures (Mem(), closed) == ReconcileShutdown(old(Mem()), session, a, p, i, at)
    {
      hide EvidenceReceipt, FinishStoppedStarts;
      var receipt := EvidenceReceipt(Mem(), session, a.request, p, i, StatusSucceeded, ModelStopped, at);
      if a.request.action == Restart {
        closed := a.(stage := RestartStopped, receipt := receipt.(status := StatusAwaitingConfirmation,
            stage := RestartStoppedReceipt));
        var rp := RuntimeOf(Mem(), p.id);
        profiles := profiles[p.id := rp.(reserved := true, reservationUntil := at + 60 * SECOND)];
      } else {
        closed := a.(stage := Done, receipt := receipt);
        FinishStoppedStartsLocked(closed);
      }
    }

    method DuplicateLocked(r: ActionRequest, p: Profile, e: EnterInputs) returns (reply: Option<Receipt>)
      requires r.jobId in attempts
      modifies this
      ensures Outcome(Now(), reply) == Duplicate(old(Now()), r, p, e)
    {
      hide Reconcile;
      var prior := attempts[r.jobId];
      if prior.digest != Some(r) {
        return Some(Rejection(r, IdempotencyConflict));
      }
      if !policy.enabled || r.params.controlEpoch != epoch || (!r.local && session == "")
          || r.params.profileRevision != p.revision {
        return Some(Rejection(r, AuthorityChanged));
      }
      if prior.stage == Done || prior.stage == RestartStopped || prior.stage == StartAttempted {
        return Some(prior.receipt);
      }
      if prior.stage == PreflightPending {
        if p.id !in pending || pending[p.id].request.jobId != r.jobId {
          var interrupted := prior.(stage := Done, receipt := Rejection(r, StartPreflightInterrupted));
          PutLocked(r.jobId, interrupted);
          var ok := SaveLocked(e.save);
          return Some(if ok then interrupted.receipt else Rejection(r, JournalUnavailable));
        }
        return Some(prior.receipt);
      }
      if e.probe.ProbeFailed? {
        return Some(Rejection(r, AttemptUnresolved));
      }
      var closed := ReconcileLocked(prior, p, e.probe.instance, e.lookAt);
      PutLocked(r.jobId, closed);
      var saved := SaveLocked(e.save);
      return Some(closed.receipt);
    }

    method RecordSatisfiedLocked(r: ActionRequest, p: Profile, i: Instance, e: EnterInputs)
        returns (reply: Option<Receipt>)
      modifies this
      ensures Outcome(Now(), reply) == RecordSatisfied(old(Now()), r, p, i, e)
    {
      hide EvidenceReceipt, FinishStoppedStarts;
      var receipt := EvidenceLocked(r, p, i, StatusSucceeded, if r.action == Stop then ModelStopped else ModelStarted,
          e.validateAt);
      var a := NewAttempt(r, Done, i, receipt, e.validateAt);
      PutLocked(r.jobId, a);
      FinishStoppedStartsLocked(a);
      var ok := SaveLocked(e.save);
      return Some(if ok then receipt else Rejection(r, JournalUnavailable));
    }

    method RecordStartingLocked(r: ActionRequest, p: Profile, i: Instance, e: EnterInputs)
        returns (reply: Option<Receipt>)
      modifies this
      ensures Outcome(Now(), reply) == RecordStarting(old(Now()), r, p, i, e)
    {
      hide EvidenceReceipt;
      var receipt := EvidenceLocked(r, p, i, StatusRunning, ModelStarting, e.validateAt);
      PutLocked(r.jobId, NewAttempt(r, EffectAttempted, i, receipt, e.validateAt));
      var ok := SaveLocked(e.save);
      return Some(if ok then receipt else Rejection(r, JournalUnavailable));
    }

    /** A start is journalled and registered, then the mutex is released for the weights preflight. */
    method BeginPreflightLocked(t: nat, r: ActionRequest, p: Profile, i: Instance, e: EnterInputs)
        returns (reply: Option<Receipt>)
      modifies this
      ensures Outcome(Now(), reply) == BeginPreflight(old(Now()), t, r, p, i, e)
    {
      hide EvidenceReceipt;
      var token := TokenOf(Now(), p.id);
      if r.action == Start {
        var receipt := EvidenceLocked(r, p, i, StatusAccepted, StartPreflightPending, e.validateAt);
        PutLocked(r.jobId, NewAttempt(r, PreflightPending, i, receipt, e.validateAt));
        var ok := SaveLocked(e.save);
        if !ok {
          attempts := attempts - {r.jobId};
          return Some(Rejection(r, JournalUnavailable));
        }
        if p.id !in pending {
          pending := pending[p.id := PendingStart(r, token, t)];
        }
      }
      threads := threads[t := InPreflight(r, p, i, token)];
      return None;
    }

    /** A stop is admitted: preflights are invalidated, waiting records cancelled. */
    method StopAdmissionLocked(id: ProfileId)
      requires RestartsUnlinked(attempts)
      modifies this
      ensures Now() == StopAdmission(old(Now()), id) && attempts.Keys == old(attempts).Keys
    {
      hide CancelForStop;
      CancelKeys(Mem(), id);
      tokens := tokens[id := TokenOf(Now(), id) + 1];
      pending := pending - {id};
      CancelForStopLocked(id);
    }

    /** A validated new request. */
    method DispatchLocked(t: nat, r: ActionRequest, p: Profile, i: Instance, e: EnterInputs)
        returns (reply: Option<Receipt>)
      requires r.jobId !in attempts && RestartsUnlinked(attempts)
      modifies this
      ensures Outcome(Now(), reply) == Dispatch(old(Now()), t, r, p, i, e)
    {
      hide FinalSection, RecordSatisfied, RecordStarting, BeginPreflight, StopAdmission, RestartsUnlinked,
          ShutdownComplete;
      if e.definition != Some(p.definitionHash) {
        return Some(Rejection(r, EffectiveDefinitionDrift));
      }
      if r.action == Restart && i.state != Running {
        return Some(Rejection(r, NotRunningUseStart));
      }
      if r.action == Stop {
        StopAdmissionLocked(p.id);
      }
      if (r.action == Start && i.state == Running) || (r.action == Stop && ShutdownComplete(p, i)) {
        reply := RecordSatisfiedLocked(r, p, i, e);
      } else if r.action == Start && i.state == Starting {
        reply := RecordStartingLocked(r, p, i, e);
      } else if r.action != Stop {
        reply := BeginPreflightLocked(t, r, p, i, e);
      } else {
        reply := FinalLocked(t, r, p, i, e.validateAt, e.final);
      }
    }

    /** The first critical section of Execute for a profile of its own. */
    method EnterDirectLocked(t: nat, r: ActionRequest, p: Profile, e: EnterInputs) returns (reply: Option<Receipt>)
      requires RestartsUnlinked(attempts)
      modifies this
      ensures Outcome(Now(), reply) == EnterDirect(old(Now()), t, r, p, e)
    {
      hide Duplicate, Dispatch, Validate, Prune;
      if r.jobId in attempts {
        reply := DuplicateLocked(r, p, e);
        return;
      }
      PruneSubset(Mem(), e.lookAt);
      PruneLocked(e.lookAt);
      if |attempts| >= 2048 {
        return Some(Rejection(r, JournalCapacity));
      }
      if e.probe.ProbeFailed? {
        return Some(Rejection(r, SupervisorIdentityUnavailable));
      }
      ValidateLeavesAttempts(Mem(), policy, session, r, p, e.probe.instance, e.validateAt);
      var refused := ValidateLocked(r, p, e.probe.instance, e.validateAt);
      if refused.Some? {
        return Some(Rejection(r, refused.value));
      }
      reply := DispatchLocked(t, r, p, e.probe.instance, e);
    }

    // -------------------------------------------------------------- the later sections of Execute

    method ResumeCheckedLocked(t: nat, r: ActionRequest, p: Profile, i: Instance, x: ResumeInputs)
        returns (reply: Option<Receipt>)
      requires r.jobId !in attempts || attempts[r.jobId].stage == PreflightPending
      modifies this
      ensures Outcome(Now(), reply) == ResumeChecked(old(Now()), t, r, p, i, x)
    {
      hide FinalSection, Validate, Preflight, RejectPreflight;
      ValidateLeavesAttempts(Mem(), policy, session, r, p, i, x.validateAt);
      var refused := ValidateLocked(r, p, i, x.validateAt);
      if refused.Some? {
        RejectPreflightLocked(r, refused.value, x.save);
        return Some(Rejection(r, refused.value));
      }
      PreflightLeavesAttempts(Mem(), policy, p, r.action == Restart, x.available, x.portFree, x.probes, x.validateAt);
      refused := PreflightLocked(p, r.action == Restart, x.available, x.portFree, x.probes, x.validateAt);
      if refused.Some? {
        RejectPreflightLocked(r, refused.value, x.save);
        return Some(Rejection(r, refused.value));
      }
      reply := FinalLocked(t, r, p, i, x.validateAt, x.final);
    }

    /** Back from the weights preflight. */
    method ResumeLocked(t: nat, x: ResumeInputs) returns (reply: Option<Receipt>)
      requires t in threads && threads[t].InPreflight?
      modifies this
      ensures Outcome(Now(), reply) == Resume(old(Now()), t, old(threads)[t], x)
    {
      hide ResumeChecked, RejectPreflight;
      var r, p, i, token := threads[t].r, threads[t].p, threads[t].i, threads[t].token;
      threads := threads - {t};
      if p.id in pending && pending[p.id].owner == t {
        pending := pending - {p.id};
      }
      assert Now() == Unregister(EndThread(old(Now()), t), t, p.id);
      if r.jobId in attempts && attempts[r.jobId].stage != PreflightPending {
        return None;
      }
      if TokenOf(Now(), p.id) != token {
        var receipt := Rejection(r, StartCancelledByStop);
        PutLocked(r.jobId, NewAttempt(r, Done, i, receipt, x.resumeAt));
        var ok := SaveLocked(x.save);
        return Some(if ok then receipt else Rejection(r, JournalUnavailable));
      }
      if x.weights.Some? {
        RejectPreflightLocked(r, x.weights.value, x.save);
        return Some(Rejection(r, x.weights.value));
      }
      if x.probe.ProbeFailed? {
        RejectPreflightLocked(r, SupervisorIdentityUnavailable, x.save);
        return Some(Rejection(r, SupervisorIdentityUnavailable));
      }
      reply := ResumeCheckedLocked(t, r, p, x.probe.instance, x);
    }

    /** The effect has been observed: the record gets its outcome. */
    method TailLocked(t: nat, r: ActionRequest, p: Profile, after: Instance, at: Time, w: Write)
        returns (reply: Option<Receipt>)
      modifies this
      ensures Outcome(Now(), reply) == TailSection(old(Now()), t, r, p, after, at, w)
    {
      hide Observe, TailRecorded, TailAttempt, StopCancelled;
      threads := threads - {t};
      var a := AttemptOf(Mem(), r.jobId);
      if StopCancelled(a) || a.stoppedBy.Some? {
        return Some(a.receipt);
      }
      var observed := ObserveLocked(p, after, at);
      assert Now() == EndThread(old(Now()), t).(mem := Observe(old(Mem()), p, after, at));
      var finished := CloseRecordLocked(a, r, p, after, at);
      var ok := SaveLocked(w);
      return Some(if ok then finished.receipt else Rejection(r, JournalPostEffectUnavailable));
    }

    method CloseRecordLocked(a: Attempt, r: ActionRequest, p: Profile, after: Instance, at: Time)
        returns (finished: Attempt)
      modifies this`attempts, this`profiles
      ensures Now() == TailRecorded(old(Now()), r, p, after, a, at)
          && finished == TailAttempt(old(Now()), a, r, p, after, at)
    {
      hide FinishStoppedStarts, FinishParent, TailAttempt;
      finished := TailRecordLocked(a, r, p, after, at);
      if r.action == Restart {
        var rp := RuntimeOf(Mem(), p.id);
        profiles := profiles[p.id := rp.(reserved := true, reservationUntil := at + 60 * SECOND)];
      }
      PutLocked(r.jobId, finished);
      FinishStoppedStartsLocked(finished);
      FinishParentLocked(finished);
    }

    method TailRecordLocked(a: Attempt, r: ActionRequest, p: Profile, after: Instance, at: Time)
        returns (finished: Attempt)
      ensures finished == TailAttempt(Now(), a, r, p, after, at)
    {
      hide EvidenceReceipt;
      var action := if r.action == Restart then Stop else r.action;
      var receipt := EvidenceLocked(r, p, after, StatusSucceeded, if action == Stop then ModelStopped else ModelStarted,
          at);
      finished := a.(stage := Done, receipt := receipt);
      if action == Start && after.state != Running {
        finished := finished.(stage := EffectAttempted,
            receipt := receipt.(status := StatusRunning, stage := ModelStarting));
      }
      if r.action == Restart {
        finished := finished.(stage := RestartStopped,
            receipt := receipt.(status := StatusAwaitingConfirmation, stage := RestartStoppedReceipt));
      }
    }

    /** The stop wait ran out. */
    method TimeoutLocked(t: nat, r: ActionRequest, p: Profile, last: Instance, at: Time, w: Write)
        returns (reply: Option<Receipt>)
      modifies this
      ensures Outcome(Now(), reply) == TimeoutSection(old(Now()), t, r, p, last, at, w)
    {
      hide EvidenceReceipt;
      var a := AttemptOf(Mem(), r.jobId);
      var receipt := EvidenceLocked(r, p, last, StatusUnknown, StopObservationTimeout, at);
      threads := threads - {t};
      PutLocked(r.jobId, a.(receipt := receipt));
      var saved := SaveLocked(w);
      return Some(receipt);
    }

    // -------------------------------------------------------------- the existing coordinator's sections

    /** A new request after its observation: it is refused, or journalled together with the advance of its parent. */
    method AdmitExistingLocked(t: nat, snap: Option<Snapshot>, at: Time, w: Write) returns (reply: Option<Receipt>)
      requires t in threads && threads[t].ObservingExisting?
      modifies this
      ensures Outcome(Now(), reply) == AdmitExisting(old(Now()), t, old(threads)[t], snap, at, w)
    {
      hide AdmitSeen, Observe, SnapshotInstance;
      var r, p, authority := threads[t].r, threads[t].p, threads[t].authority;
      threads := threads - {t};
      if snap.None? {
        return Some(Rejection(r, SupervisorIdentityUnavailable));
      }
      if r.jobId in attempts {
        return None;
      }
      var observed := ObserveLocked(p, SnapshotInstance(snap.value, p), at);
      reply := AdmitSeenLocked(t, r, p, snap.value, authority, at, w);
    }

    /** Why an observed request is not admitted, if it is not: the checks in order. */
    method RefuseExistingLocked(r: ActionRequest, p: Profile, snap: Snapshot, authority: Authority, at: Time)
        returns (refused: Option<Code>)
      ensures refused == ExistingRefusal(Now(), r, p, snap, authority, at)
    {
      hide SnapshotInstance;
      var before := SnapshotInstance(snap, p);
      var wanted := if r.local then "local:" + epoch else session;
      var allowed := r.action in p.allowed;
      if r.parentJobId.Some? {
        allowed := ExistingParentAllows(Mem(), r, p, at);
      }
      if !allowed || !policy.enabled {
        return Some(LocalActionNotApproved);
      }
      if r.params.controlEpoch != epoch || r.params.expectedAgentSession != wanted
          || r.params.profileRevision != p.revision || snap.authority != authority {
        return Some(AuthorityOrProfileDrift);
      }
      if r.params.expectedGeneration != RuntimeOf(Mem(), p.id).generation {
        return Some(GenerationDrift);
      }
      if snap.profileRevision != p.backendRevision {
        return Some(EffectiveDefinitionDrift);
      }
      if before.state == UnknownState {
        return Some(SupervisorIdentityUnavailable);
      }
      if r.action == Restart && before.state != Running {
        return Some(NotRunningUseStart);
      }
      if r.action != Start && before.state != Stopped && !r.params.confirmDisruption {
        return Some(DisruptionConfirmationRequired);
      }
      if r.issuedAt == ZERO_TIME || at >= r.deadline || r.deadline <= r.issuedAt
          || r.deadline - r.issuedAt > DISPATCH_LEASE || r.issuedAt > at + SECOND {
        return Some(DispatchExpired);
      }
      return None;
    }

    method AdmitSeenLocked(t: nat, r: ActionRequest, p: Profile, snap: Snapshot, authority: Authority, at: Time,
                           w: Write) returns (reply: Option<Receipt>)
      modifies this
      ensures Outcome(Now(), reply) == AdmitSeen(old(Now()), t, r, p, snap, authority, at, w)
    {
      hide ExistingRefusal, EvidenceReceipt, SnapshotInstance, BackendRequestFor;
      var refused := RefuseExistingLocked(r, p, snap, authority, at);
      if refused.Some? {
        return Some(Rejection(r, refused.value));
      }
      if |attempts| >= 2048 {
        return Some(Rejection(r, JournalCapacity));
      }
      var before := SnapshotInstance(snap, p);
      var receipt := EvidenceLocked(r, p, before, StatusUnknown, EffectAttemptedReceipt, at);
      var request := BackendRequestFor(r, p, snap, authority);
      PutLocked(r.jobId, NewAttempt(r, ExistingAttempted, before, receipt, at).(backendRequest := Some(request)));
      if r.parentJobId.Some? {
        var parent := AttemptOf(Mem(), r.parentJobId.value);
        PutLocked(r.parentJobId.value,
                  parent.(stage := StartAttempted, receipt := parent.receipt.(status := StatusRunning,
                      stage := RestartStartAttempted, verifiedAt := None)));
      }
      assert Now() == old(Now()).(mem := ExistingJournal(old(Now()), r, p, snap, authority, at));
      var ok := SaveLocked(w);
      if !ok {
        return Some(Rejection(r, JournalUnavailable));
      }
      threads := threads[t := Submitting(r, p, request, authority)];
      return None;
    }

    /** A finished stop of the same run, if there is one. */
    method FindStopLocked(p: Profile, backend: BackendReceipt) returns (id: JobId)
      ensures SomeStopsRun(Mem(), p, backend) ==> id in attempts && StopsRun(attempts[id], p, backend)
    {
      hide StopsRun;
      id := "";
      var todo := attempts.Keys;
      while todo != {}
        invariant todo <= attempts.Keys
        invariant forall k :: k in attempts && k !in todo ==> !StopsRun(attempts[k], p, backend)
        decreases |todo|
      {
        var k :| k in todo;
        if StopsRun(attempts[k], p, backend) {
          return k;
        }
        todo := todo - {k};
      }
    }

    /** A proven stop closes the open starts of its run. */
    method CloseStartsLocked(stop: Receipt, p: Profile, backend: BackendReceipt)
      modifies this`attempts
      ensures Mem() == CloseStarts(old(Mem()), stop, p, backend)
    {
      if backend.action != Stop || stop.status != StatusSucceeded {
        return;
      }
      hide StartOfRun;
      ghost var all, closed := attempts, CloseStarts(Mem(), stop, p, backend).attempts;
      var todo := attempts.Keys;
      PartlyEnds(all, closed);
      assert all.Keys - todo == {};
      while todo != {}
        invariant todo <= all.Keys && attempts == Partly(all, closed, all.Keys - todo)
        decreases |todo|
      {
        var k :| k in todo;
        PartlyStep(all, closed, all.Keys - todo, k);
        assert all.Keys - (todo - {k}) == (all.Keys - todo) + {k};
        var start := attempts[k];
        if StartOfRun(start, p, backend) {
          attempts := attempts[k := start.(stage := Done, receipt := CancelledReceipt(stop, start.request))];
        }
        todo := todo - {k};
      }
      assert all.Keys - todo == all.Keys;
    }

    /** The record is settled already, authority or approval changed, or the answer is about another run than before. */
    method BlockedLocked(r: ActionRequest, p: Profile, backend: BackendReceipt, authority: Authority, bootId: string)
        returns (blocked: bool)
      ensures blocked == CommitBlocked(Now(), r, p, backend, authority, bootId)
    {
      var a := AttemptOf(Mem(), r.jobId);
      if a.stage == Done || a.stage == RestartStopped || (a.stage == StartAttempted && r.action == Restart) {
        return true;
      }
      var approved := FindProfile(policy.profiles, p.id);
      if session == "" || authority != Authority(epoch, session, bootId) || !policy.enabled || approved.None? ||
         approved.value.revision != p.revision || approved.value.definitionHash != p.definitionHash {
        return true;
      }
      if a.backendReceipt.None? {
        return false;
      }
      var known := a.backendReceipt.value;
      return known.runId != backend.runId || known.attempt != backend.attempt || known.generation != backend.generation;
    }

    /** The snapshot counts unless it contradicts the record or is older than what was observed since. */
    method UsableLocked(a: Attempt, p: Profile, current: Option<Snapshot>) returns (usable: Option<Snapshot>)
      ensures usable == UsableSnapshot(Now(), a, p, current)
    {
      hide Compatible, SnapshotInstance;
      usable := current;
      if usable.Some? && !Compatible(a.backendSnapshot, usable) {
        usable := None;
      }
      if usable.Some? {
        var observed := RuntimeOf(Mem(), p.id);
        if observed.identity != SnapshotInstance(usable.value, p).identity && observed.identity != a.before.identity &&
           observed.backendObservedAtMs >= usable.value.observedAtMs {
          usable := None;
        }
      }
    }

    method ExistingEvidenceLocked(r: ActionRequest, p: Profile, i: Instance, status: Status, stage: ReceiptStage,
                                  at: Time) returns (receipt: Receipt)
      ensures receipt == ExistingEvidence(Now(), r, p, i, status, stage, at)
    {
      receipt := EvidenceLocked(r, p, i, status, stage, at);
      receipt := receipt.(evidence := Some(receipt.evidence.value.(controlEpoch := r.params.controlEpoch,
          agentSession := r.params.expectedAgentSession)));
    }

    /** What answer and snapshot prove about the attempt. */
    method JudgeLocked(a: Attempt, r: ActionRequest, p: Profile, backend: BackendReceipt, current: Option<Snapshot>,
                       i: Instance, at: Time)
      returns (judged: Attempt)
      ensures judged == Judged(Now(), a, r, p, backend, current, i, at)
    {
      hide ExistingEvidence, StopProven, StartProven;
      var unresolved := ExistingEvidenceLocked(r, p, i, StatusUnknown, AttemptUnresolvedReceipt, at);
      unresolved := unresolved.(verifiedAt := None);
      if backend.result.Some? && backend.result.value.effectInvoked == Some(false) {
        return a.(stage := Done, receipt := Rejection(r, BackendEffectNotInvoked));
      }
      if current.Some? && StopProven(p, backend, current.value) {
        var stopped := ExistingEvidenceLocked(r, p, i, StatusSucceeded, ModelStopped, at);
        judged := a.(stage := Done, receipt := stopped);
        if r.action == Restart {
          judged := a.(stage := RestartStopped, receipt := stopped.(status := StatusAwaitingConfirmation,
              stage := RestartStoppedReceipt));
        }
        return;
      }
      if current.Some? && StartProven(p, backend, current.value) {
        var started := ExistingEvidenceLocked(r, p, i, StatusSucceeded, ModelStarted, at);
        EvidenceIsThere(Now(), r, p, i, StatusSucceeded, ModelStarted, at);
        return a.(stage := Done, receipt := started.(evidence := Some(started.evidence.value.(ready := true))));
      }
      if current.Some? && backend.action == Start && (current.value.result.state == STARTING
          || current.value.result.state == READY) {
        return a.(receipt := unresolved.(status := StatusRunning, stage := ModelStarting));
      }
      return a.(receipt := unresolved);
    }

    /** The record with the answer taken over; a start that lost to the stop `stopId` of its run is closed with that
        stop's receipt. */
    method SettleLocked(r: ActionRequest, p: Profile, backend: BackendReceipt, a: Attempt, current: Option<Snapshot>,
                        stopId: JobId, ghost x: CommitInputs, at: Time)
      returns (settled: Attempt)
      requires x.now == at && x.stopId == stopId
      ensures settled == Settled(Now(), r, p, backend, a, current, x)
    {
      hide Judged, StopsRun, SnapshotInstance;
      settled := a;
      var instance := a.before.(state := UnknownState, available := false, shutdownVerified := false);
      if current.Some? {
        instance := SnapshotInstance(current.value, p);
        settled := settled.(backendSnapshot := current, accepted := a.accepted + [current.value]);
      }
      settled := JudgeLocked(settled, r, p, backend, current, instance, at);
      settled := settled.(backendReceipt := Some(backend));
      if backend.action == Start && settled.stage != Done {
        if stopId in attempts && StopsRun(attempts[stopId], p, backend) {
          settled := settled.(stage := Done, receipt := CancelledReceipt(attempts[stopId].receipt, r));
        }
      }
    }

    /** The backend's answer is taken over into the record, and what it closes is closed. */
    method CommitLocked(t: nat, bootId: string, at: Time, w: Write)
        returns (reply: Option<Receipt>, ghost x: CommitInputs)
      requires t in threads && threads[t].Committing?
      modifies this
      ensures x == CommitInputs(bootId, at, x.stopId, w)
      ensures var th := old(threads)[t];
              && (SomeStopsRun(old(Mem()), th.p, th.backend) ==>
                   x.stopId in old(attempts) && StopsRun(old(attempts)[x.stopId], th.p, th.backend))
              && Outcome(Now(), reply) == Commit(old(Now()), t, th, x)
    {
      hide Settled, CommitBlocked, UsableSnapshot, Observe, SomeStopsRun, StopsRun, CommitRecorded, JudgedInstance;
      var th := threads[t];
      var r, p, backend := th.r, th.p, th.backend;
      var a := AttemptOf(Mem(), r.jobId);
      var stopId := FindStopLocked(p, backend);
      x := CommitInputs(bootId, at, stopId, w);
      var blocked := BlockedLocked(r, p, backend, th.authority, bootId);
      var current := UsableLocked(a, p, th.current);
      threads := threads - {t};
      if blocked {
        return Some(a.receipt), x;
      }
      if current.Some? {
        var observed := ObserveLocked(p, JudgedInstance(a, p, current), at);
      }
      var settled := SettleLocked(r, p, backend, a, current, stopId, x, at);
      RecordCommitLocked(r, p, backend, settled);
      var ok := SaveLocked(w);
      return Some(if ok then settled.receipt else Rejection(r, JournalPostEffectUnavailable)), x;
    }

    method RecordCommitLocked(r: ActionRequest, p: Profile, backend: BackendReceipt, settled: Attempt)
      modifies this`attempts
      ensures Now() == CommitRecorded(old(Now()), r, p, backend, settled)
    {
      hide CloseStarts, FinishParent;
      PutLocked(r.jobId, settled);
      CloseStartsLocked(settled.receipt, p, backend);
      FinishParentLocked(settled);
    }
  }

  lemma EvidenceIsThere(b: Broker, r: ActionRequest, p: Profile, i: Instance, status: Status, stage: ReceiptStage,
                        at: Time)
    ensures ExistingEvidence(b, r, p, i, status, stage, at).evidence.Some?
  {
  }

  lemma CancelKeys(j: Journal, id: ProfileId)
    ensures CancelForStop(j, id).attempts.Keys == j.attempts.Keys
  {
  }

  lemma PruneSubset(j: Journal, at: Time)
    requires RestartsUnlinked(j.attempts)
    ensures Prune(j, at).attempts.Keys <= j.attempts.Keys && RestartsUnlinked(Prune(j, at).attempts)
  {
  }

  lemma ValidateLeavesAttempts(j: Journal, policy: Policy, session: string, r: ActionRequest, p: Profile, i: Instance,
                               at: Time)
    ensures Validate(j, policy, session, r, p, i, at).0.attempts == j.attempts
  {
    hide ObservedProfile, ValidateInstance, ValidateAuthority;
  }

  lemma PreflightLeavesAttempts(j: Journal, policy: Policy, p: Profile, replace: bool, available: nat, portFree: bool,
                                probes: map<ProfileId, Probe>, at: Time)
    ensures Preflight(j, policy, p, replace, available, portFree, probes, at).0.attempts == j.attempts
  {
    OthersLeaveAttempts(j, policy.profiles, p, replace, MemoryNeed(p), available, probes, at);
  }

  lemma {:induction false} OthersLeaveAttempts(j: Journal, others: seq<Profile>, p: Profile, replace: bool, need: nat,
                                               available: nat, probes: map<ProfileId, Probe>, at: Time)
    ensures PreflightOthers(j, others, p, replace, need, available, probes, at).0.attempts == j.attempts
    decreases |others|
  {
    hide ObservedProfile, Conflicts;
    if others != [] {
      var first := others[0];
      var seen := if first.id != p.id && Conflicts(p, first) && ProbeOf(probes, first.id).Probed?
          then Observe(j, first, ProbeOf(probes, first.id).instance, at) else j;
      var left := if RuntimeOf(seen, first.id).reserved && first.requiredMemory > 0 && !replace
          && first.requiredMemory <= available then available - first.requiredMemory else available;
      OthersLeaveAttempts(seen, others[1..], p, replace, need, left, probes, at);
      OthersLeaveAttempts(j, others[1..], p, replace, need, available, probes, at);
      OthersLeaveAttempts(seen, others[1..], p, replace, need, available, probes, at);
    }
  }
}
