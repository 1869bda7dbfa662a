/**
  How single records move: which steps may still change a record that is done,
  or take a restart back once its linked start was admitted; where the digest of
  a record can come from; and that the snapshots a record accepts form a chain.

  A finished record is changed only by the tail of the call that owns it (never
  when a stop cancelled it) and by the expiry of that call's own stop wait;
  pruning drops finished records after a day.
*/
module BrokerRecords {
  import opened SparkTypes
  import opened BrokerRules
  import opened ExistingRules
  import opened Broker
  import opened BrokerJournal
  import opened BrokerSections

  predicate Final(a: Attempt) {
    a.stage == Done || a.stage == StartAttempted
  }

  /** A finished record is unchanged; a restart whose linked start was admitted is at most finished. */
  predicate Onward(a: Attempt, a': Attempt) {
    && (a.stage == Done ==> a' == a)
    && (a.stage == StartAttempted ==> SameRecord(a, a') && (a'.stage == StartAttempted || a'.stage == Done))
  }

  /** The accepted snapshots are pairwise compatible in order, and the last one is on record. */
  ghost predicate ChainOk(chain: seq<Snapshot>, last: Option<Snapshot>) {
    ChainCompatible(chain) && last == if chain == [] then None else Some(chain[|chain| - 1])
  }

  ghost predicate Chained(a: Attempt) {
    ChainOk(a.accepted, a.backendSnapshot)
  }

  /** Where record `k` of `j'` comes from: its digest was there before or is that of the served request, and its
      chain stays a chain. */
  ghost predicate Sources(j: Journal, j': Journal, k: JobId, r: ActionRequest) {
    k in j'.attempts ==>
      && var a := j'.attempts[k];
         && ((k in j.attempts && a.digest == j.attempts[k].digest)
             || (k == r.jobId && (a.digest.None? || a.digest == Some(r))))
         && ((k in j.attempts ==> Chained(j.attempts[k])) ==> Chained(a))
  }

  /** A record of another id than the served one keeps its time, or is old enough to be pruned. */
  predicate Stays(j: Journal, j': Journal, k: JobId, r: ActionRequest, now: Time) {
    k in j.attempts && k != r.jobId ==> if k in j'.attempts then j'.attempts[k].at == j.attempts[k].at
        else j.attempts[k].at < now - DAY
  }

  /** Record `k` only moves onward, or is old enough to be pruned. */
  ghost predicate Moves(j: Journal, j': Journal, k: JobId, r: ActionRequest, now: Time) {
    && (k in j.attempts && Final(j.attempts[k]) ==>
          if k in j'.attempts then Onward(j.attempts[k], j'.attempts[k]) else j.attempts[k].at < now - DAY)
    && Sources(j, j', k, r) && Stays(j, j', k, r, now)
  }

  /** A section moves record `k` properly, in memory and in the file. */
  ghost predicate Tidy(b: Broker, b': Broker, k: JobId, r: ActionRequest, now: Time) {
    Moves(b.mem, b'.mem, k, r, now) && (b'.disk == b.disk || Moves(b.mem, b'.disk, k, r, now))
  }

  lemma MovesTransitive(j: Journal, j': Journal, j'': Journal, k: JobId, r: ActionRequest, now: Time)
    requires Moves(j, j', k, r, now) && Moves(j', j'', k, r, now)
        && (k in j.attempts && k in j''.attempts ==> k in j'.attempts)
    ensures Moves(j, j'', k, r, now)
  {
    hide ChainOk;
  }

  lemma TidyTransitive(b: Broker, b1: Broker, b2: Broker, k: JobId, r: ActionRequest, now: Time)
    requires Moves(b.mem, b1.mem, k, r, now) && b1.disk == b.disk && Tidy(b1, b2, k, r, now)
    requires k in b.mem.attempts ==> k in b1.mem.attempts
    ensures Tidy(b, b2, k, r, now)
  {
    hide Moves;
    MovesTransitive(b.mem, b1.mem, b2.mem, k, r, now);
    if b2.disk != b.disk {
      MovesTransitive(b.mem, b1.mem, b2.disk, k, r, now);
    }
  }

  /** Records untouched, whatever happened to the profiles. */
  lemma SameAttempts(j: Journal, j': Journal, k: JobId, r: ActionRequest, now: Time)
    requires j'.attempts == j.attempts
    ensures Moves(j, j', k, r, now)
  {
    hide ChainOk;
  }

  lemma ProfilesAside(j: Journal, j': Journal, j'': Journal, k: JobId, r: ActionRequest, now: Time)
    requires Moves(j, j', k, r, now) && j''.attempts == j'.attempts
    ensures Moves(j, j'', k, r, now)
  {
    hide ChainOk;
  }

  lemma EmptyChain()
    ensures ChainOk([], None)
  {
  }

  predicate Open(j: Journal, id: JobId) {
    id in j.attempts ==> !Final(j.attempts[id])
  }

  lemma PutNewMoves(b: Broker, a: Attempt, k: JobId, r: ActionRequest, now: Time)
    requires Open(b.mem, r.jobId) && a.digest == Some(r) && a.accepted == [] && a.backendSnapshot.None?
    ensures Moves(b.mem, Put(b, r.jobId, a).mem, k, r, now)
  {
  }

  /** The record keeps its chain and digest, and moves onward. */
  predicate SameEvidence(a: Attempt, a': Attempt) {
    a'.accepted == a.accepted && a'.backendSnapshot == a.backendSnapshot && a'.digest == a.digest
  }

  // ---------------------------------------------------------------- the rules

  lemma CancelForStopMoves(j: Journal, id: ProfileId, k: JobId, r: ActionRequest, now: Time)
    ensures Moves(j, CancelForStop(j, id), k, r, now)
  {
    hide ChainOk;
  }

  lemma LinkStartsMoves(j: Journal, stop: ActionRequest, i: Instance, k: JobId, r: ActionRequest, now: Time)
    ensures Moves(j, LinkStarts(j, stop, i), k, r, now)
  {
    hide ChainOk, SameAuthority, ExactInstance;
  }

  lemma FinishStoppedStartsMoves(j: Journal, done: Attempt, k: JobId, r: ActionRequest, now: Time)
    ensures Moves(j, FinishStoppedStarts(j, done), k, r, now)
  {
    hide ChainOk, ProvenStop, SameAuthority, StoppedStartReceipt;
  }

  lemma FinishParentMoves(j: Journal, stage: Attempt, k: JobId, r: ActionRequest, now: Time)
    requires ShapedJournal(j) && (stage.request == ZERO_REQUEST || stage.request.operationId != "")
    ensures Moves(j, FinishParent(j, stage), k, r, now)
  {
    hide ChainOk;
    if ParentAwaits(j, stage) {
      assert Shaped(stage.request.parentJobId.value, j.attempts[stage.request.parentJobId.value]);
    }
  }

  /** Taking links back touches only starts that were unfinished before the stop. */
  lemma UndoLinksMoves(before: Journal, j: Journal, stop: ActionRequest, i: Instance, k: JobId, r: ActionRequest,
                       now: Time)
    requires Moves(before, j, k, r, now)
    ensures Moves(before, UndoLinks(j, before, stop, i), k, r, now)
  {
    hide ChainOk;
  }

  lemma AdvanceParentMoves(j: Journal, r: ActionRequest, k: JobId, now: Time)
    requires r.parentJobId.Some? ==> Open(j, r.parentJobId.value) && r.parentJobId.value in j.attempts
    ensures Moves(j, AdvanceParent(j, r), k, r, now) && Moves(j, AdvanceExistingParent(j, r), k, r, now)
  {
    hide ChainOk;
  }

  // ---------------------------------------------------------------- the final section

  lemma EffectAttemptNew(b: Broker, r: ActionRequest, p: Profile, i: Instance, at: Time)
    ensures var a := EffectAttempt(b, r, p, i, at);
            a.stage == EffectAttempted && a.digest == Some(r) && a.accepted == [] && a.backendSnapshot.None?
  {
  }

  lemma LinkStartsOpen(j: Journal, stop: ActionRequest, i: Instance, k: JobId)
    requires k in j.attempts && Open(j, k)
    ensures k in LinkStarts(j, stop, i).attempts && Open(LinkStarts(j, stop, i), k)
  {
  }

  lemma AdmittedMoves(b: Broker, r: ActionRequest, p: Profile, i: Instance, at: Time, k: JobId, now: Time)
    requires Unrecorded(b.mem, r) && (r.parentJobId.Some? ==> ParentStopped(b.mem, r, p))
    ensures Moves(b.mem, AdmittedJournal(b, r, p, i, at), k, r, now)
  {
    hide EffectAttempt, LinkStarts, Moves, AdvanceParent;
    EffectAttemptNew(b, r, p, i, at);
    var recorded := Put(b, r.jobId, EffectAttempt(b, r, p, i, at)).mem;
    PutNewMoves(b, EffectAttempt(b, r, p, i, at), k, r, now);
    var linked := if r.action == Stop then LinkStarts(recorded, r, i) else recorded;
    LinkStartsMoves(recorded, r, i, k, r, now);
    SameAttempts(recorded, recorded, k, r, now);
    assert linked.attempts.Keys == recorded.attempts.Keys by { LinkStartsKeys(recorded, r, i); }
    MovesTransitive(b.mem, recorded, linked, k, r, now);
    if r.parentJobId.Some? {
      LinkStartsOpen(recorded, r, i, r.parentJobId.value);
    }
    AdvanceParentMoves(linked, r, k, now);
    MovesTransitive(b.mem, linked, AdvanceParent(linked, r), k, r, now);
    ProfilesAside(b.mem, AdvanceParent(linked, r), AdmittedJournal(b, r, p, i, at), k, r, now);
  }

  lemma LinkStartsKeys(j: Journal, stop: ActionRequest, i: Instance)
    ensures LinkStarts(j, stop, i).attempts.Keys == j.attempts.Keys
  {
  }

  lemma FireMoves(before: Journal, b: Broker, t: nat, r: ActionRequest, p: Profile, i: Instance, a: Attempt,
                  validatedAt: Time, f: FinalInputs, k: JobId, now: Time)
    requires Moves(before, b.mem, k, r, now) && Open(before, r.jobId)
    requires a.stage == EffectAttempted && a.digest == Some(r) && a.accepted == [] && a.backendSnapshot.None?
    ensures var o := Fire(b, t, r, p, i, a, validatedAt, f).b;
            Moves(before, o.mem, k, r, now) && (o.disk == b.disk || o.disk == o.mem)
  {
    hide EvidenceReceipt, ObservedProfile, FinishParent, Moves;
    var called := Called(b, t, r, p, validatedAt, f);
    if f.effect.None? {
      PutOwn(before, called, a.(receipt := EvidenceOf(called, r, p, i, StatusUnknown, SupervisorEffectUnconfirmed,
          f.effectAt)), k, r, now);
    } else {
      var seen := called.(mem := Observe(called.mem, p, f.effect.value, f.effectAt));
      var accepted := a.(receipt := EvidenceOf(seen, r, p, f.effect.value, StatusRunning, SupervisorCallAccepted,
          f.effectAt));
      ProfilesAside(before, b.mem, seen.mem, k, r, now);
      PutOwn(before, seen, accepted, k, r, now);
      FinishParentWaits(Put(seen, r.jobId, accepted).mem, accepted);
    }
  }

  /** The served request's own record is replaced by another one of the same kind. */
  lemma PutOwn(before: Journal, b: Broker, a: Attempt, k: JobId, r: ActionRequest, now: Time)
    requires Moves(before, b.mem, k, r, now) && Open(before, r.jobId)
    requires a.digest == Some(r) && a.accepted == [] && a.backendSnapshot.None?
    ensures Moves(before, Put(b, r.jobId, a).mem, k, r, now)
  {
    hide ChainOk;
    EmptyChain();
  }

  /** Nothing is closed by a record that is not done. */
  lemma FinishParentWaits(j: Journal, stage: Attempt)
    requires stage.stage != Done
    ensures FinishParent(j, stage) == j
  {
  }

  lemma PublishedTidy(b: Broker, saved: Broker, t: nat, r: ActionRequest, p: Profile, i: Instance, a: Attempt,
                      validatedAt: Time, f: FinalInputs, k: JobId, now: Time)
    requires Moves(b.mem, saved.mem, k, r, now) && Open(b.mem, r.jobId)
        && (saved.disk == b.disk || saved.disk == saved.mem)
    requires a.stage == EffectAttempted && a.digest == Some(r) && a.accepted == [] && a.backendSnapshot.None?
    ensures Tidy(b, Published(saved, b.mem, t, r, p, i, a, validatedAt, f).b, k, r, now)
  {
    hide Fire, UndoLinks, ChainOk;
    if f.firstSave != Synced {
      var dropped := Drop(saved, r.jobId).mem;
      assert Moves(b.mem, dropped, k, r, now);
      UndoLinksMoves(b.mem, dropped, r, i, k, r, now);
    } else if f.effectAt >= r.deadline {
      var stored := Put(saved, r.jobId, a.(stage := Done, receipt := Rejection(r, DispatchExpired))).mem;
      PutOwn(b.mem, saved, a.(stage := Done, receipt := Rejection(r, DispatchExpired)), k, r, now);
      UndoLinksMoves(b.mem, stored, r, i, k, r, now);
    } else {
      FireMoves(b.mem, saved, t, r, p, i, a, validatedAt, f, k, now);
    }
  }

  lemma FinalTidy(b: Broker, t: nat, r: ActionRequest, p: Profile, i: Instance, validatedAt: Time, f: FinalInputs,
                  k: JobId, now: Time)
    requires Unrecorded(b.mem, r)
    ensures Tidy(b, FinalSection(b, t, r, p, i, validatedAt, f).b, k, r, now)
  {
    hide AdmittedJournal, Published, EffectAttempt, Moves, RejectPreflight;
    SameAttempts(b.mem, b.mem, k, r, now);
    RejectTidy(b, r, EffectiveDefinitionDrift, f.firstSave, k, now);
    RejectTidy(b, r, DispatchExpired, f.firstSave, k, now);
    if f.definition == Some(p.definitionHash) && f.admitAt < r.deadline
        && (r.parentJobId.Some? ==> ParentStopped(b.mem, r, p)) {
      AdmittedMoves(b, r, p, i, f.admitAt, k, now);
      EffectAttemptNew(b, r, p, i, f.admitAt);
      var saved := Saved(b.(mem := AdmittedJournal(b, r, p, i, f.admitAt)), f.firstSave);
      PublishedTidy(b, saved, t, r, p, i, EffectAttempt(b, r, p, i, f.admitAt), validatedAt, f, k, now);
    }
  }

  lemma RejectTidy(b: Broker, r: ActionRequest, code: Code, w: Write, k: JobId, now: Time)
    ensures Tidy(b, RejectPreflight(b, r, code, w), k, r, now)
  {
    hide ChainOk;
  }

  // ---------------------------------------------------------------- the first section

  lemma ReconcileMoves(j: Journal, session: string, a: Attempt, p: Profile, i: Instance, at: Time, k: JobId,
                       r: ActionRequest, now: Time)
    requires ShapedJournal(j) && a.request.operationId != ""
    ensures var x := Reconcile(j, session, a, p, i, at);
            Moves(j, x.0, k, r, now) && x.0.attempts.Keys == j.attempts.Keys
  {
    hide EvidenceReceipt, ObservedProfile, FinishStoppedStarts, FinishParent, Moves;
    var seen := Observe(j, p, i, at);
    SameAttempts(j, seen, k, r, now);
    FinishStoppedStartsKeys(seen, a);
    if a.stoppedBy.Some? {
      if a.stoppedBy.value in seen.attempts {
        var stop := seen.attempts[a.stoppedBy.value];
        FinishStoppedStartsMoves(seen, stop, k, r, now);
        FinishStoppedStartsKeys(seen, stop);
        MovesTransitive(j, seen, FinishStoppedStarts(seen, stop), k, r, now);
      }
    } else if a.request.action == Start && i.state == Running {
      var done := ReconcileStarted(seen, session, a, p, i, at).1;
      FinishParentMoves(seen, done, k, r, now);
      FinishParentRewrites(seen, done);
      MovesTransitive(j, seen, FinishParent(seen, done), k, r, now);
    } else if a.request.action == Restart && ShutdownComplete(p, i) {
      SameAttempts(j, HoldReservation(seen, p.id, at), k, r, now);
    } else if a.request.action == Stop && ShutdownComplete(p, i) {
      var done := ReconcileShutdown(seen, session, a, p, i, at).1;
      FinishStoppedStartsMoves(seen, done, k, r, now);
      FinishStoppedStartsKeys(seen, done);
      MovesTransitive(j, seen, FinishStoppedStarts(seen, done), k, r, now);
    }
  }

  lemma FinishStoppedStartsKeys(j: Journal, stop: Attempt)
    ensures FinishStoppedStarts(j, stop).attempts.Keys == j.attempts.Keys
  {
  }

  /** The reconciled record keeps digest and chain. */
  lemma ReconcileSame(j: Journal, session: string, a: Attempt, p: Profile, i: Instance, at: Time)
    requires a == AttemptOf(j, a.request.jobId)
    ensures SameEvidence(a, Reconcile(j, session, a, p, i, at).1)
  {
    hide EvidenceReceipt, ObservedProfile, FinishParent;
  }

  lemma DuplicateTidy(b: Broker, r: ActionRequest, p: Profile, e: EnterInputs, k: JobId, now: Time)
    requires ShapedJournal(b.mem) && r.jobId in b.mem.attempts
    ensures Tidy(b, Duplicate(b, r, p, e).b, k, r, now)
  {
    hide Reconcile, Moves;
    var prior := b.mem.attempts[r.jobId];
    assert Shaped(r.jobId, prior);
    IdleTidy(b, k, r, now);
    if !Final(prior) {
      SameAttempts(b.mem, b.mem, k, r, now);
      PutOver(b.mem, b, prior.(stage := Done, receipt := Rejection(r, StartPreflightInterrupted)), k, r, now);
    }
    if prior.digest == Some(r) && !Final(prior) && e.probe.Probed? {
      var closed := Reconcile(b.mem, b.session, prior, p, e.probe.instance, e.lookAt);
      ReconcileMoves(b.mem, b.session, prior, p, e.probe.instance, e.lookAt, k, r, now);
      ReconcileSame(b.mem, b.session, prior, p, e.probe.instance, e.lookAt);
      PutOver(b.mem, b.(mem := closed.0), closed.1, k, r, now);
    }
  }

  /** An unfinished record is put back with its digest and chain. */
  lemma PutOver(before: Journal, b: Broker, a: Attempt, k: JobId, r: ActionRequest, now: Time)
    requires Moves(before, b.mem, k, r, now) && r.jobId in before.attempts && Open(before, r.jobId)
        && SameEvidence(before.attempts[r.jobId], a)
    ensures Moves(before, Put(b, r.jobId, a).mem, k, r, now)
  {
    hide ChainOk;
  }

  lemma RecordSatisfiedTidy(b: Broker, r: ActionRequest, p: Profile, i: Instance, e: EnterInputs, k: JobId, now: Time)
    requires r.jobId !in b.mem.attempts
    ensures Tidy(b, RecordSatisfied(b, r, p, i, e).b, k, r, now)
  {
    hide EvidenceReceipt, FinishStoppedStarts, Moves;
    var a := NewAttempt(r, Done, i, EvidenceOf(b, r, p, i, StatusSucceeded, if r.action == Stop then ModelStopped
        else ModelStarted, e.validateAt), e.validateAt);
    PutNewMoves(b, a, k, r, now);
    var stored := Put(b, r.jobId, a).mem;
    FinishStoppedStartsMoves(stored, a, k, r, now);
    MovesTransitive(b.mem, stored, FinishStoppedStarts(stored, a), k, r, now);
  }

  lemma RecordStartingTidy(b: Broker, r: ActionRequest, p: Profile, i: Instance, e: EnterInputs, k: JobId, now: Time)
    requires r.jobId !in b.mem.attempts
    ensures Tidy(b, RecordStarting(b, r, p, i, e).b, k, r, now)
  {
    hide EvidenceReceipt, Moves;
    PutNewMoves(b, NewAttempt(r, EffectAttempted, i, EvidenceOf(b, r, p, i, StatusRunning, ModelStarting, e.validateAt),
        e.validateAt), k, r, now);
  }

  lemma BeginPreflightTidy(b: Broker, t: nat, r: ActionRequest, p: Profile, i: Instance, e: EnterInputs, k: JobId,
                           now: Time)
    requires r.jobId !in b.mem.attempts
    ensures Tidy(b, BeginPreflight(b, t, r, p, i, e).b, k, r, now)
  {
    hide EvidenceReceipt, Moves;
    var pending := NewAttempt(r, PreflightPending, i, EvidenceOf(b, r, p, i, StatusAccepted, StartPreflightPending,
        e.validateAt), e.validateAt);
    PutNewMoves(b, pending, k, r, now);
    assert Drop(Put(b, r.jobId, pending), r.jobId).mem == b.mem;
    SameAttempts(b.mem, b.mem, k, r, now);
  }

  lemma StopAdmissionKeys(b: Broker, id: ProfileId)
    ensures StopAdmission(b, id).mem.attempts.Keys == b.mem.attempts.Keys
  {
  }

  lemma DispatchTidy(b: Broker, t: nat, r: ActionRequest, p: Profile, i: Instance, e: EnterInputs, k: JobId, now: Time)
    requires r.jobId !in b.mem.attempts
    ensures Tidy(b, Dispatch(b, t, r, p, i, e).b, k, r, now)
  {
    hide FinalSection, RecordSatisfied, RecordStarting, BeginPreflight, CancelForStop, Moves, Tidy;
    IdleTidy(b, k, r, now);
    var admitted := if r.action == Stop then StopAdmission(b, p.id) else b;
    CancelForStopMoves(b.mem, p.id, k, r, now);
    SameAttempts(b.mem, b.mem, k, r, now);
    StopAdmissionKeys(b, p.id);
    if AlreadySatisfied(r, p, i) {
      RecordSatisfiedTidy(admitted, r, p, i, e, k, now);
      TidyTransitive(b, admitted, RecordSatisfied(admitted, r, p, i, e).b, k, r, now);
    } else if r.action != Stop {
      BeginPreflightTidy(b, t, r, p, i, e, k, now);
      RecordStartingTidy(b, r, p, i, e, k, now);
    } else {
      FinalTidy(admitted, t, r, p, i, e.validateAt, e.final, k, now);
      TidyTransitive(b, admitted, FinalSection(admitted, t, r, p, i, e.validateAt, e.final).b, k, r, now);
    }
  }

  lemma IdleTidy(b: Broker, k: JobId, r: ActionRequest, now: Time)
    ensures Tidy(b, b, k, r, now)
  {
    hide Moves;
    SameAttempts(b.mem, b.mem, k, r, now);
  }

  lemma PruneMoves(j: Journal, at: Time, k: JobId, r: ActionRequest, now: Time)
    requires at <= now
    ensures Moves(j, Prune(j, at), k, r, now)
  {
    hide ChainOk;
  }

  lemma EnterDirectTidy(b: Broker, t: nat, r: ActionRequest, p: Profile, e: EnterInputs, k: JobId, now: Time)
    requires ShapedJournal(b.mem) && e.lookAt <= now
    ensures Tidy(b, EnterDirect(b, t, r, p, e).b, k, r, now)
  {
    hide Duplicate, Dispatch, Validate, Moves, Prune;
    if r.jobId in b.mem.attempts {
      DuplicateTidy(b, r, p, e, k, now);
    } else {
      var pruned := b.(mem := Prune(b.mem, e.lookAt));
      PruneMoves(b.mem, e.lookAt, k, r, now);
      BrokerPruneKeys(b.mem, e.lookAt);
      if e.probe.Probed? {
        ValidateQuiet(pruned.mem, b.policy, b.session, r, p, e.probe.instance, e.validateAt);
        var checked := pruned.(mem := Validate(pruned.mem, b.policy, b.session, r, p, e.probe.instance,
            e.validateAt).0);
        ProfilesAside(b.mem, pruned.mem, checked.mem, k, r, now);
        DispatchTidy(checked, t, r, p, e.probe.instance, e, k, now);
        var o := Dispatch(checked, t, r, p, e.probe.instance, e).b;
        NewKey(checked.mem, o.mem, k, r, now);
        MovesTransitive(b.mem, checked.mem, o.mem, k, r, now);
        if o.disk != b.disk {
          NewKey(checked.mem, o.disk, k, r, now);
          MovesTransitive(b.mem, checked.mem, o.disk, k, r, now);
        }
      }
    }
  }

  lemma NewKey(j: Journal, j': Journal, k: JobId, r: ActionRequest, now: Time)
    requires Moves(j, j', k, r, now)
    ensures k in j'.attempts ==> k in j.attempts || k == r.jobId
  {
  }

  lemma BrokerPruneKeys(j: Journal, now: Time)
    ensures Prune(j, now).attempts.Keys <= j.attempts.Keys
  {
  }

  // ---------------------------------------------------------------- the second section

  lemma ResumeCheckedTidy(b: Broker, t: nat, r: ActionRequest, p: Profile, i: Instance, x: ResumeInputs, k: JobId,
                          now: Time)
    requires Unrecorded(b.mem, r)
    ensures Tidy(b, ResumeChecked(b, t, r, p, i, x).b, k, r, now)
  {
    hide FinalSection, Validate, PreflightOthers, RejectPreflight, Moves, Tidy;
    ValidateQuiet(b.mem, b.policy, b.session, r, p, i, x.validateAt);
    var validated := Validate(b.mem, b.policy, b.session, r, p, i, x.validateAt);
    PreflightOthersQuiet(validated.0, b.policy.profiles, p, r.action == Restart, MemoryNeed(p), x.available, x.probes,
        x.validateAt);
    var walked := Preflight(validated.0, b.policy, p, r.action == Restart, x.available, x.portFree, x.probes,
        x.validateAt);
    SameAttempts(b.mem, validated.0, k, r, now);
    SameAttempts(b.mem, walked.0, k, r, now);
    if validated.1.Some? {
      RejectTidy(b.(mem := validated.0), r, validated.1.value, x.save, k, now);
      TidyTransitive(b, b.(mem := validated.0), RejectPreflight(b.(mem := validated.0), r, validated.1.value, x.save),
          k, r, now);
    } else if walked.1.Some? {
      RejectTidy(b.(mem := walked.0), r, walked.1.value, x.save, k, now);
      TidyTransitive(b, b.(mem := walked.0), RejectPreflight(b.(mem := walked.0), r, walked.1.value, x.save), k, r,
          now);
    } else {
      FinalTidy(b.(mem := walked.0), t, r, p, i, x.validateAt, x.final, k, now);
      TidyTransitive(b, b.(mem := walked.0), FinalSection(b.(mem := walked.0), t, r, p, i, x.validateAt, x.final).b, k,
          r, now);
    }
  }

  lemma ResumeTidy(b: Broker, t: nat, th: Thread, x: ResumeInputs, k: JobId, now: Time)
    requires th.InPreflight?
    ensures Tidy(b, Resume(b, t, th, x).b, k, th.r, now)
  {
    hide ResumeChecked, RejectPreflight, Moves;
    var r := th.r;
    var back := Unregister(EndThread(b, t), t, th.p.id);
    SameAttempts(b.mem, b.mem, k, r, now);
    if Unrecorded(back.mem, r) {
      if TokenOf(back, th.p.id) != th.token {
        PutNewMoves(back, NewAttempt(r, Done, th.i, Rejection(r, StartCancelledByStop), x.resumeAt), k, r, now);
      } else if x.weights.Some? {
        RejectTidy(back, r, x.weights.value, x.save, k, now);
      } else if x.probe.ProbeFailed? {
        RejectTidy(back, r, SupervisorIdentityUnavailable, x.save, k, now);
      } else {
        ResumeCheckedTidy(back, t, r, th.p, x.probe.instance, x, k, now);
      }
    }
  }

  // ---------------------------------------------------------------- after the effect

  lemma TailAttemptSame(b: Broker, a: Attempt, r: ActionRequest, p: Profile, after: Instance, at: Time)
    ensures var a' := TailAttempt(b, a, r, p, after, at); SameRecord(a, a') && SameEvidence(a, a')
  {
  }

  /** The outcome of a call is stored in its own record; the other records only move onward. */
  lemma TailRecordedMoves(b: Broker, r: ActionRequest, p: Profile, after: Instance, a: Attempt, at: Time, k: JobId,
                          now: Time)
    requires ShapedJournal(b.mem) && a == AttemptOf(b.mem, r.jobId)
    ensures var o := TailRecorded(b, r, p, after, a, at);
            Sources(b.mem, o.mem, k, r) && (k != r.jobId ==> Moves(b.mem, o.mem, k, r, now)) && o.disk == b.disk
  {
    hide TailAttempt, FinishStoppedStarts, FinishParent, Sources, Moves;
    assert r.jobId in b.mem.attempts ==> Shaped(r.jobId, a);
    var finished := TailAttempt(b, a, r, p, after, at);
    TailAttemptSame(b, a, r, p, after, at);
    var held := b.(mem := if r.action == Restart then HoldReservation(b.mem, p.id, at) else b.mem);
    PutBack(held, r.jobId, finished, at);
    var stored := Put(held, r.jobId, finished).mem;
    PutEnded(b.mem, held, r, finished, k, now);
    CloseTailMoves(b.mem, stored, finished, p, k, r, now);
  }

  lemma PutEnded(j: Journal, b: Broker, r: ActionRequest, a: Attempt, k: JobId, now: Time)
    requires b.mem.attempts == j.attempts && SameEvidence(AttemptOf(j, r.jobId), a)
    ensures Sources(j, Put(b, r.jobId, a).mem, k, r) && (k != r.jobId ==> Moves(j, Put(b, r.jobId, a).mem, k, r, now))
  {
    hide ChainOk;
    EmptyChain();
  }

  lemma CloseTailMoves(j: Journal, stored: Journal, finished: Attempt, p: Profile, k: JobId, r: ActionRequest,
                       now: Time)
    requires ShapedJournal(stored) && (finished.request == ZERO_REQUEST || finished.request.operationId != "")
    requires Sources(j, stored, k, r)
    ensures var o := FinishParent(FinishStoppedStarts(stored, finished), finished);
            Sources(j, o, k, r) && (Moves(j, stored, k, r, now) ==> Moves(j, o, k, r, now))
  {
    hide FinishStoppedStarts, FinishParent, ChainOk;
    var swept := FinishStoppedStarts(stored, finished);
    FinishStoppedStartsMoves(stored, finished, k, r, now);
    FinishStoppedStartsRewrites(stored, finished);
    RewritesKeep(stored, swept, now);
    FinishParentMoves(swept, finished, k, r, now);
    FinishParentRewrites(swept, finished);
  }

  /** The tail changes nothing, or stores the outcome in the record of its own call. */
  lemma TailForms(b: Broker, t: nat, r: ActionRequest, p: Profile, after: Instance, at: Time, w: Write)
    ensures var a, b' := AttemptOf(b.mem, r.jobId), TailSection(b, t, r, p, after, at, w).b;
            var seen := EndThread(b, t).(mem := Observe(b.mem, p, after, at));
            if StopCancelled(a) || a.stoppedBy.Some? then b'.mem == b.mem && b'.disk == b.disk
            else b' == Saved(TailRecorded(seen, r, p, after, a, at), w)
  {
    hide TailRecorded, TailAttempt, ObservedProfile, StopCancelled;
  }

  lemma TailTidy(b: Broker, t: nat, r: ActionRequest, p: Profile, after: Instance, at: Time, w: Write, k: JobId,
                 now: Time)
    requires ShapedJournal(b.mem)
    ensures var b' := TailSection(b, t, r, p, after, at, w).b;
            && Sources(b.mem, b'.mem, k, r) && (b'.disk == b.disk || b'.disk == b'.mem)
            && (k != r.jobId || StopCancelled(AttemptOf(b.mem, k)) ==> Moves(b.mem, b'.mem, k, r, now))
  {
    hide TailRecorded, Moves, Sources, ObservedProfile, StopCancelled, TailSection;
    var a := AttemptOf(b.mem, r.jobId);
    SameAttempts(b.mem, b.mem, k, r, now);
    MovesSources(b.mem, b.mem, k, r, now);
    TailForms(b, t, r, p, after, at, w);
    if !(StopCancelled(a) || a.stoppedBy.Some?) {
      var seen := EndThread(b, t).(mem := Observe(b.mem, p, after, at));
      TailRecordedMoves(seen, r, p, after, a, at, k, now);
      SourcesAside(b.mem, seen.mem, TailRecorded(seen, r, p, after, a, at).mem, k, r, now);
    }
  }

  lemma MovesSources(j: Journal, j': Journal, k: JobId, r: ActionRequest, now: Time)
    requires Moves(j, j', k, r, now)
    ensures Sources(j, j', k, r)
  {
  }

  lemma SourcesAside(j: Journal, seen: Journal, j': Journal, k: JobId, r: ActionRequest, now: Time)
    requires seen.attempts == j.attempts && Sources(seen, j', k, r)
    ensures Sources(j, j', k, r) && (Moves(seen, j', k, r, now) ==> Moves(j, j', k, r, now))
  {
    hide ChainOk;
  }

  lemma TimeoutTidy(b: Broker, t: nat, r: ActionRequest, p: Profile, last: Instance, at: Time, w: Write, k: JobId,
                    now: Time)
    ensures var b' := TimeoutSection(b, t, r, p, last, at, w).b;
            && Sources(b.mem, b'.mem, k, r) && (b'.disk == b.disk || b'.disk == b'.mem)
            && (k != r.jobId ==> Moves(b.mem, b'.mem, k, r, now))
  {
    hide ChainOk, EvidenceReceipt;
    EmptyChain();
  }

  // ---------------------------------------------------------------- the existing coordinator

  lemma AdmitSeenTidy(b: Broker, t: nat, r: ActionRequest, p: Profile, snap: Snapshot, authority: Authority, at: Time,
                      w: Write, k: JobId, now: Time)
    requires r.jobId !in b.mem.attempts
    ensures Tidy(b, AdmitSeen(b, t, r, p, snap, authority, at, w).b, k, r, now)
  {
    hide ExistingJournal, ExistingRefusal, BackendRequestFor, Moves;
    SameAttempts(b.mem, b.mem, k, r, now);
    if ExistingRefusal(b, r, p, snap, authority, at).None? {
      ExistingRefusalQuiet(b, r, p, snap, authority, at);
      ExistingJournalMoves(b, r, p, snap, authority, at, k, now);
    }
  }

  lemma ExistingJournalMoves(b: Broker, r: ActionRequest, p: Profile, snap: Snapshot, authority: Authority, at: Time,
                             k: JobId, now: Time)
    requires r.jobId !in b.mem.attempts && (r.parentJobId.Some? ==> ParentStopped(b.mem, r, p))
    ensures Moves(b.mem, ExistingJournal(b, r, p, snap, authority, at), k, r, now)
  {
    hide EvidenceReceipt, SnapshotInstance, BackendRequestFor, Moves;
    var before := SnapshotInstance(snap, p);
    var a := NewAttempt(r, ExistingAttempted, before, EvidenceOf(b, r, p, before, StatusUnknown, EffectAttemptedReceipt,
        at), at)
               .(backendRequest := Some(BackendRequestFor(r, p, snap, authority)));
    PutNewMoves(b, a, k, r, now);
    var stored := Put(b, r.jobId, a).mem;
    AdvanceParentMoves(stored, r, k, now);
    MovesTransitive(b.mem, stored, AdvanceExistingParent(stored, r), k, r, now);
  }

  lemma AdmitExistingTidy(b: Broker, t: nat, th: Thread, snap: Option<Snapshot>, at: Time, w: Write, k: JobId,
                          now: Time)
    requires th.ObservingExisting?
    ensures Tidy(b, AdmitExisting(b, t, th, snap, at, w).b, k, th.r, now)
  {
    hide AdmitSeen, ObservedProfile, Moves;
    SameAttempts(b.mem, b.mem, k, th.r, now);
    if snap.Some? && th.r.jobId !in b.mem.attempts {
      var ended := EndThread(b, t);
      var seen := ended.(mem := Observe(ended.mem, th.p, SnapshotInstance(snap.value, th.p), at));
      SameAttempts(b.mem, seen.mem, k, th.r, now);
      AdmitSeenTidy(seen, t, th.r, th.p, snap.value, th.authority, at, w, k, now);
      TidyTransitive(b, seen, AdmitSeen(seen, t, th.r, th.p, snap.value, th.authority, at, w).b, k, th.r, now);
    }
  }

  /** The settled record moves onward, and its chain grows by at most one compatible snapshot. */
  lemma SettledMoves(b: Broker, r: ActionRequest, p: Profile, backend: BackendReceipt, a: Attempt,
                     current: Option<Snapshot>, x: CommitInputs)
    requires a.stage != Done && (a.stage == StartAttempted ==> r.action != Restart)
    requires current.Some? ==> Compatible(a.backendSnapshot, current)
    ensures var a' := Settled(b, r, p, backend, a, current, x);
            Onward(a, a') && a'.digest == a.digest && (Chained(a) ==> Chained(a'))
  {
    hide Judged, CancelledByStop;
    var taken := if current.Some? then a.(backendSnapshot := current, accepted := a.accepted + [current.value]) else a;
    var judged := Judged(b, taken, r, p, backend, current, JudgedInstance(a, p, current), x.now)
        .(backendReceipt := Some(backend));
    JudgedKeeps(b, taken, r, p, backend, current, JudgedInstance(a, p, current), x.now);
    CancelledKeeps(b.mem, judged, r, p, backend, x.stopId);
    if Chained(a) && current.Some? {
      ChainExtends(a.accepted, current.value);
    }
  }

  lemma JudgedKeeps(b: Broker, a: Attempt, r: ActionRequest, p: Profile, backend: BackendReceipt,
                    current: Option<Snapshot>, i: Instance, now: Time)
    ensures var a' := Judged(b, a, r, p, backend, current, i, now);
            SameEvidence(a, a') && a'.request == a.request && a'.at == a.at
            && (a'.stage == a.stage || a'.stage == Done || (a'.stage == RestartStopped && r.action == Restart))
  {
    hide EvidenceReceipt, StopProven, StartProven;
  }

  lemma CancelledKeeps(j: Journal, a: Attempt, r: ActionRequest, p: Profile, backend: BackendReceipt, stopId: JobId)
    ensures var a' := CancelledByStop(j, a, r, p, backend, stopId);
            SameEvidence(a, a') && a'.request == a.request && a'.at == a.at && (a'.stage == a.stage || a'.stage == Done)
  {
  }

  lemma CommitRecordedMoves(b: Broker, r: ActionRequest, p: Profile, backend: BackendReceipt, settled: Attempt,
                            k: JobId, now: Time)
    requires ShapedJournal(b.mem) && SameRecord(AttemptOf(b.mem, r.jobId), settled)
        && Onward(AttemptOf(b.mem, r.jobId), settled)
    requires settled.digest == AttemptOf(b.mem, r.jobId).digest
        && (Chained(AttemptOf(b.mem, r.jobId)) ==> Chained(settled))
    ensures Moves(b.mem, CommitRecorded(b, r, p, backend, settled).mem, k, r, now)
        && CommitRecorded(b, r, p, backend, settled).disk == b.disk
  {
    hide FinishParent, CloseStarts, Moves;
    assert r.jobId in b.mem.attempts ==> Shaped(r.jobId, AttemptOf(b.mem, r.jobId));
    PutBack(b, r.jobId, settled, now);
    PutSettled(b, r, settled, k, now);
    var stored := Put(b, r.jobId, settled).mem;
    var swept := CloseStarts(stored, settled.receipt, p, backend);
    CloseStartsRewrites(stored, settled.receipt, p, backend);
    CloseStartsMoves(stored, settled.receipt, p, backend, k, r, now);
    RewritesKeep(stored, swept, now);
    FinishParentMoves(swept, settled, k, r, now);
    MovesTransitive(b.mem, stored, swept, k, r, now);
    MovesTransitive(b.mem, swept, FinishParent(swept, settled), k, r, now);
  }

  lemma PutSettled(b: Broker, r: ActionRequest, settled: Attempt, k: JobId, now: Time)
    requires Onward(AttemptOf(b.mem, r.jobId), settled)
    requires settled.digest == AttemptOf(b.mem, r.jobId).digest
        && (Chained(AttemptOf(b.mem, r.jobId)) ==> Chained(settled))
    ensures Moves(b.mem, Put(b, r.jobId, settled).mem, k, r, now)
  {
    hide ChainOk;
    EmptyChain();
  }

  lemma CloseStartsMoves(j: Journal, stop: Receipt, p: Profile, backend: BackendReceipt, k: JobId, r: ActionRequest,
                         now: Time)
    ensures Moves(j, CloseStarts(j, stop, p, backend), k, r, now)
  {
    hide ChainOk;
  }

  lemma CommitTidy(b: Broker, t: nat, th: Thread, x: CommitInputs, k: JobId, now: Time)
    requires ShapedJournal(b.mem) && th.Committing?
    ensures Tidy(b, Commit(b, t, th, x).b, k, th.r, now)
  {
    hide Settled, CommitRecorded, ObservedProfile, Moves, Compatible, Chained, JudgedInstance;
    var a := AttemptOf(b.mem, th.r.jobId);
    SameAttempts(b.mem, b.mem, k, th.r, now);
    if !CommitBlocked(b, th.r, th.p, th.backend, th.authority, x.bootId) {
      var current := UsableSnapshot(b, a, th.p, th.current);
      var ended := EndThread(b, t);
      var seen := if current.Some? then ended.(mem := Observe(ended.mem, th.p, JudgedInstance(a, th.p, current), x.now))
          else ended;
      SameAttempts(b.mem, seen.mem, k, th.r, now);
      SettledSame(seen, th.r, th.p, th.backend, a, current, x);
      SettledMoves(seen, th.r, th.p, th.backend, a, current, x);
      var settled := Settled(seen, th.r, th.p, th.backend, a, current, x);
      CommitRecordedMoves(seen, th.r, th.p, th.backend, settled, k, now);
      MovesTransitive(b.mem, seen.mem, CommitRecorded(seen, th.r, th.p, th.backend, settled).mem, k, th.r, now);
    }
  }

  // ---------------------------------------------------------------- every step

  /** The step is the tail of a call that still owns record `id`, or the expiry of its stop wait. */
  predicate OwnEnding(b: Broker, s: Step, id: JobId) {
    (s.StepTail? || s.StepTimeout?) && s.t in b.threads && b.threads[s.t].InTail? && b.threads[s.t].r.jobId == id
  }

  lemma EnterTidy(b: Broker, r: ActionRequest, bootId: string, e: EnterInputs, k: JobId, now: Time)
    requires ShapedJournal(b.mem) && e.lookAt <= now
    ensures Tidy(b, Enter(b, r, bootId, e).b, k, r, now)
  {
    hide EnterDirect, EnterExisting, Moves;
    SameAttempts(b.mem, b.mem, k, r, now);
    var p := FindProfile(b.policy.profiles, r.params.profileId);
    if p.Some? {
      EnterDirectTidy(b.(nextThread := b.nextThread + 1), b.nextThread, r, p.value, e, k, now);
    }
  }

  lemma QuietTidy(b: Broker, s: Step, k: JobId, now: Time)
    requires Enabled(b, s) && (Small(s) || s.StepSubmit?)
    ensures Tidy(b, Apply(b, s), k, RequestOf(b, s), now)
  {
    hide Moves, ObservedProfile, Enter, Resume, TailSection, TimeoutSection, AdmitExisting, Commit, Crashed, Opened;
    var b' := Apply(b, s);
    SameAttempts(b.mem, b'.mem, k, RequestOf(b, s), now);
    SameAttempts(b.mem, b.mem, k, RequestOf(b, s), now);
  }

  /** Every step moves every record properly, except a call ending its own record. */
  lemma StepTidy(b: Broker, s: Step, k: JobId)
    requires ShapedJournal(b.mem) && Enabled(b, s) && Section(s)
    requires OwnEnding(b, s, k) ==> s.StepTail? && StopCancelled(AttemptOf(b.mem, k))
    ensures Tidy(b, Apply(b, s), k, RequestOf(b, s), Apply(b, s).now)
  {
    hide Enter, Resume, AdmitExisting, Commit, TailSection, TimeoutSection, Moves, Sources, StopCancelled;
    var now := Apply(b, s).now;
    match s
    case StepEnter(r, bootId, e) => EnterTidy(b, r, bootId, e, k, now);
    case StepResume(t, x) => ResumeTidy(b, t, b.threads[t], x, k, now);
    case StepTail(t, verified, at, w) =>
      var th := b.threads[t];
      TailTidy(b, t, th.r, th.p, if SupervisorAction(th.r.action) == Stop then verified else th.after, at, w, k, now);
    case StepTimeout(t, last, at, w) => TimeoutTidy(b, t, b.threads[t].r, b.threads[t].p, last, at, w, k, now);
    case StepAdmitExisting(t, snap, at, w) => AdmitExistingTidy(b, t, b.threads[t], snap, at, w, k, now);
    case StepCommit(t, x) => CommitTidy(b, t, b.threads[t], x, k, now);
    case _ => QuietTidy(b, s, k, now);
  }

  /** Digests and chains come from where they should in every step, even a call ending its own record. */
  lemma StepSources(b: Broker, s: Step, k: JobId)
    requires ShapedJournal(b.mem) && Enabled(b, s) && Section(s)
    ensures var b', r := Apply(b, s), RequestOf(b, s);
            Sources(b.mem, b'.mem, k, r) && (b'.disk == b.disk || Sources(b.mem, b'.disk, k, r))
  {
    hide Enter, Resume, AdmitExisting, Commit, TailSection, TimeoutSection, Sources;
    var now := Apply(b, s).now;
    match s
    case StepTail(t, verified, at, w) =>
      var th := b.threads[t];
      TailTidy(b, t, th.r, th.p, if SupervisorAction(th.r.action) == Stop then verified else th.after, at, w, k, now);
    case StepTimeout(t, last, at, w) => TimeoutTidy(b, t, b.threads[t].r, b.threads[t].p, last, at, w, k, now);
    case _ => StepTidy(b, s, k);
  }
}
