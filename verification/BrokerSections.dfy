/**
  What every critical section of the broker guarantees about the journal and
  about the acts it performs: records keep answering for their requests, and the
  one act a section may add is journalled first, in memory and on disk.
*/
module BrokerSections {
  import opened SparkTypes
  import opened BrokerRules
  import opened ExistingRules
  import opened Broker
  import opened BrokerJournal

  const GRACE := DISPATCH_LEASE + 5 * SECOND

  /** No record answers for the id of `r` yet; at most its own preflight is journalled. */
  predicate Unrecorded(j: Journal, r: ActionRequest) {
    r.jobId !in j.attempts || j.attempts[r.jobId].stage == PreflightPending
  }

  /** The one act a section may add is for a request nothing answered for, and is journalled in memory and on disk. */
  ghost predicate ActsCarefully(b: Broker, b': Broker, now: Time) {
    || b'.acts == b.acts
    || (&& |b'.acts| == |b.acts| + 1 && b'.acts[..|b.acts|] == b.acts
        && var x := b'.acts[|b.acts|].request;
           !Covered(b.mem, x, now) && Covered(b'.mem, x, now) && Covered(b'.disk, x, now))
  }

  ghost predicate DiskFrom(b: Broker, b': Broker, now: Time) {
    b'.disk == b.disk || (KeepsRecords(b.mem, b'.disk, now) && ShapedJournal(b'.disk))
  }

  /** What every critical section guarantees about journal and acts. */
  ghost predicate Careful(b: Broker, b': Broker, now: Time) {
    KeepsRecords(b.mem, b'.mem, now) && ShapedJournal(b'.mem) && DiskFrom(b, b', now) && ActsCarefully(b, b', now)
  }

  lemma CarefulAfterQuiet(b: Broker, b1: Broker, b2: Broker, now: Time)
    requires KeepsRecords(b.mem, b1.mem, now) && b1.acts == b.acts && b1.disk == b.disk && Careful(b1, b2, now)
    ensures Careful(b, b2, now)
  {
    KeepsTransitive(b.mem, b1.mem, b2.mem, now);
    if b2.disk != b.disk {
      KeepsTransitive(b.mem, b1.mem, b2.disk, now);
    }
    if b2.acts != b1.acts {
      var x := b2.acts[|b.acts|].request;
      if Covered(b.mem, x, now) {
        CoveredKept(b.mem, b1.mem, x, now);
      }
    }
  }

  lemma CarefulIdle(b: Broker, now: Time)
    requires ShapedJournal(b.mem)
    ensures Careful(b, b, now) && KeepsRecords(b.mem, b.mem, now)
  {
  }

  lemma CarefulAfterSave(b: Broker, b1: Broker, w: Write, now: Time)
    requires Careful(b, b1, now)
    ensures Careful(b, Saved(b1, w), now)
  {
  }

  /** A rewritten record put back in place, or the remainder of a pruned one. */
  lemma PutBack(b: Broker, id: JobId, a: Attempt, now: Time)
    requires ShapedJournal(b.mem)
    requires SameRecord(AttemptOf(b.mem, id), a)
    ensures KeepsRecords(b.mem, Put(b, id, a).mem, now) && ShapedJournal(Put(b, id, a).mem)
  {
    assert Shaped(id, AttemptOf(b.mem, id));
  }

  lemma PutNew(b: Broker, r: ActionRequest, a: Attempt, now: Time)
    requires ShapedJournal(b.mem) && Unrecorded(b.mem, r) && Shaped(r.jobId, a)
    ensures KeepsRecords(b.mem, Put(b, r.jobId, a).mem, now) && ShapedJournal(Put(b, r.jobId, a).mem)
  {
  }

  // ---------------------------------------------------------------- the effect section

  lemma AdvanceParentRewrites(j: Journal, r: ActionRequest)
    requires r.parentJobId.Some? ==> r.parentJobId.value in j.attempts
    ensures Rewrites(j, AdvanceParent(j, r))
  {
  }

  lemma ReserveRewrites(j: Journal, r: ActionRequest, id: ProfileId, now: Time)
    ensures Rewrites(j, Reserve(j, r, id, now))
  {
  }

  /** Linking, parent advance and reservation rewrite the journal that holds the new record. */
  lemma AdmissionRewrites(recorded: Journal, r: ActionRequest, p: Profile, i: Instance, at: Time)
    requires r.parentJobId.Some? ==> r.parentJobId.value in recorded.attempts
    ensures Rewrites(recorded, Reserve(AdvanceParent(if r.action == Stop then LinkStarts(recorded, r, i) else recorded,
        r), r, p.id, at))
  {
    var linked := if r.action == Stop then LinkStarts(recorded, r, i) else recorded;
    LinkStartsRewrites(recorded, r, i);
    AdvanceParentRewrites(linked, r);
    RewritesTransitive(recorded, linked, AdvanceParent(linked, r));
    ReserveRewrites(AdvanceParent(linked, r), r, p.id, at);
    RewritesTransitive(recorded, AdvanceParent(linked, r), Reserve(AdvanceParent(linked, r), r, p.id, at));
  }

  lemma AdmittedJournalKeeps(b: Broker, r: ActionRequest, p: Profile, i: Instance, at: Time, now: Time)
    requires ShapedJournal(b.mem) && Unrecorded(b.mem, r) && r.operationId != "" && r.deadline <= at + GRACE
    requires r.parentJobId.Some? ==> ParentStopped(b.mem, r, p)
    ensures var j := AdmittedJournal(b, r, p, i, at);
            KeepsRecords(b.mem, j, now) && ShapedJournal(j) && r.jobId in j.attempts
                && SameRecord(j.attempts[r.jobId], EffectAttempt(b, r, p, i, at))
            && Answers(j.attempts[r.jobId], r)
  {
    hide LinkStarts, AdvanceParent, Reserve;
    var a := EffectAttempt(b, r, p, i, at);
    PutNew(b, r, a, now);
    var recorded := Put(b, r.jobId, a).mem;
    AdmissionRewrites(recorded, r, p, i, at);
    var j := AdmittedJournal(b, r, p, i, at);
    RewritesKeep(recorded, j, now);
    KeepsTransitive(b.mem, recorded, j, now);
    assert SameRecord(recorded.attempts[r.jobId], j.attempts[r.jobId]);
    RecordKept(b, r, p, i, at);
  }

  lemma RecordKept(b: Broker, r: ActionRequest, p: Profile, i: Instance, at: Time)
    requires r.parentJobId != Some(r.jobId)
    ensures var j := AdmittedJournal(b, r, p, i, at);
            r.jobId in j.attempts && j.attempts[r.jobId] == EffectAttempt(b, r, p, i, at)
  {
  }

  lemma UnconfirmedCareful(b: Broker, r: ActionRequest, p: Profile, i: Instance, a: Attempt, f: FinalInputs, now: Time)
    requires ShapedJournal(b.mem) && r.jobId in b.mem.attempts && SameRecord(b.mem.attempts[r.jobId], a)
    ensures Careful(b, Unconfirmed(b, r, p, i, a, f).b, now)
  {
    var unsure := a.(receipt := EvidenceOf(b, r, p, i, StatusUnknown, SupervisorEffectUnconfirmed, f.effectAt));
    PutBack(b, r.jobId, unsure, now);
    CarefulAfterSave(b, Put(b, r.jobId, unsure), f.secondSave, now);
  }

  lemma ConfirmedCareful(b: Broker, t: nat, r: ActionRequest, p: Profile, after: Instance, a: Attempt, f: FinalInputs,
                         now: Time)
    requires ShapedJournal(b.mem) && r.jobId in b.mem.attempts && SameRecord(b.mem.attempts[r.jobId], a)
    ensures Careful(b, Confirmed(b, t, r, p, after, a, f).b, now)
  {
    assert Shaped(r.jobId, b.mem.attempts[r.jobId]);
    var seen := b.(mem := Observe(b.mem, p, after, f.effectAt));
    var accepted := a.(receipt := EvidenceOf(seen, r, p, after, StatusRunning, SupervisorCallAccepted, f.effectAt));
    PutBack(seen, r.jobId, accepted, now);
    var stored := Put(seen, r.jobId, accepted);
    FinishParentRewrites(stored.mem, accepted);
    RewritesKeep(stored.mem, FinishParent(stored.mem, accepted), now);
    KeepsTransitive(b.mem, stored.mem, FinishParent(stored.mem, accepted), now);
    CarefulAfterSave(b, stored.(mem := FinishParent(stored.mem, accepted)), f.secondSave, now);
  }

  lemma WithdrawCareful(b: Broker, saved: Broker, r: ActionRequest, i: Instance, now: Time)
    requires Unrecorded(b.mem, r) && KeepsRecords(b.mem, saved.mem, now) && ShapedJournal(saved.mem)
    requires DiskFrom(b, saved, now) && saved.acts == b.acts
    ensures Careful(b, Withdraw(saved, b.mem, r, i), now)
  {
    var dropped := Drop(saved, r.jobId).mem;
    assert KeepsRecords(b.mem, dropped, now);
    UndoLinksRewrites(dropped, b.mem, r, i);
    RewritesKeep(dropped, UndoLinks(dropped, b.mem, r, i), now);
    KeepsTransitive(b.mem, dropped, UndoLinks(dropped, b.mem, r, i), now);
  }

  lemma CloseUnusedCareful(b: Broker, before: Journal, r: ActionRequest, i: Instance, a: Attempt, w: Write, now: Time)
    requires ShapedJournal(b.mem) && r.jobId in b.mem.attempts && SameRecord(b.mem.attempts[r.jobId], a)
    ensures Careful(b, CloseUnused(b, before, r, i, a, w), now)
  {
    var expired := a.(stage := Done, receipt := Rejection(r, DispatchExpired));
    PutBack(b, r.jobId, expired, now);
    var stored := Put(b, r.jobId, expired);
    UndoLinksRewrites(stored.mem, before, r, i);
    RewritesKeep(stored.mem, UndoLinks(stored.mem, before, r, i), now);
    KeepsTransitive(b.mem, stored.mem, UndoLinks(stored.mem, before, r, i), now);
    CarefulAfterSave(b, stored.(mem := UndoLinks(stored.mem, before, r, i)), w, now);
  }

  /** After a synced publication, quiet work keeps the section careful and the new record answering. */
  lemma CarefulAfterPublication(b: Broker, saved: Broker, b': Broker, r: ActionRequest, now: Time)
    requires KeepsRecords(b.mem, saved.mem, now) && saved.disk == saved.mem && ShapedJournal(saved.mem)
    requires Covered(saved.mem, r, now)
    requires KeepsRecords(saved.mem, b'.mem, now) && ShapedJournal(b'.mem) && DiskFrom(saved, b', now)
    ensures KeepsRecords(b.mem, b'.mem, now) && DiskFrom(b, b', now) && Covered(b'.mem, r, now)
        && Covered(b'.disk, r, now)
  {
    KeepsTransitive(b.mem, saved.mem, b'.mem, now);
    CoveredKept(saved.mem, b'.mem, r, now);
    if b'.disk != saved.disk {
      KeepsTransitive(b.mem, saved.mem, b'.disk, now);
      CoveredKept(saved.mem, b'.disk, r, now);
    }
  }

  lemma FireCareful(b: Broker, t: nat, r: ActionRequest, p: Profile, i: Instance, a: Attempt, validatedAt: Time,
                    f: FinalInputs, now: Time)
    requires ShapedJournal(b.mem) && r.jobId in b.mem.attempts && SameRecord(b.mem.attempts[r.jobId], a)
    ensures var b' := Fire(b, t, r, p, i, a, validatedAt, f).b;
            && KeepsRecords(b.mem, b'.mem, now) && ShapedJournal(b'.mem) && DiskFrom(b, b', now)
            && b'.acts == Called(b, t, r, p, validatedAt, f).acts
  {
    var called := Called(b, t, r, p, validatedAt, f);
    if f.effect.None? {
      UnconfirmedCareful(called, r, p, i, a, f, now);
    } else {
      ConfirmedCareful(called, t, r, p, f.effect.value, a, f, now);
    }
  }

  lemma PublishedCareful(b: Broker, saved: Broker, t: nat, r: ActionRequest, p: Profile, i: Instance, a: Attempt,
                         validatedAt: Time, f: FinalInputs)
    requires Unrecorded(b.mem, r) && KeepsRecords(b.mem, saved.mem, f.effectAt) && ShapedJournal(saved.mem)
    requires saved.acts == b.acts && (f.firstSave == FailedOld || saved.disk == saved.mem)
        && (f.firstSave == FailedOld ==> saved.disk == b.disk)
    requires r.jobId in saved.mem.attempts && SameRecord(saved.mem.attempts[r.jobId], a)
        && Answers(saved.mem.attempts[r.jobId], r)
    ensures Careful(b, Published(saved, b.mem, t, r, p, i, a, validatedAt, f).b, f.effectAt)
  {
    var now := f.effectAt;
    if f.firstSave != Synced {
      WithdrawCareful(b, saved, r, i, now);
    } else if f.effectAt >= r.deadline {
      CloseUnusedCareful(saved, b.mem, r, i, a, f.secondSave, now);
      CarefulAfterPublication(b, saved, CloseUnused(saved, b.mem, r, i, a, f.secondSave), r, now);
    } else {
      FireCareful(saved, t, r, p, i, a, validatedAt, f, now);
      CarefulAfterPublication(b, saved, Fire(saved, t, r, p, i, a, validatedAt, f).b, r, now);
    }
  }

  lemma AdmitCareful(b: Broker, t: nat, r: ActionRequest, p: Profile, i: Instance, validatedAt: Time, f: FinalInputs)
    requires ShapedJournal(b.mem) && Unrecorded(b.mem, r) && r.operationId != "" && r.deadline <= f.admitAt + GRACE
    requires r.parentJobId.Some? ==> ParentStopped(b.mem, r, p)
    ensures Careful(b, Admit(b, t, r, p, i, validatedAt, f).b, f.effectAt)
  {
    AdmittedJournalKeeps(b, r, p, i, f.admitAt, f.effectAt);
    var saved := Saved(b.(mem := AdmittedJournal(b, r, p, i, f.admitAt)), f.firstSave);
    PublishedCareful(b, saved, t, r, p, i, EffectAttempt(b, r, p, i, f.admitAt), validatedAt, f);
  }

  lemma RejectPreflightCareful(b: Broker, r: ActionRequest, code: Code, w: Write, now: Time)
    requires ShapedJournal(b.mem)
    ensures Careful(b, RejectPreflight(b, r, code, w), now)
  {
    if r.jobId in b.mem.attempts && b.mem.attempts[r.jobId].stage == PreflightPending {
      var rejected := b.mem.attempts[r.jobId].(stage := Done, receipt := Rejection(r, code));
      PutBack(b, r.jobId, rejected, now);
      CarefulAfterSave(b, Put(b, r.jobId, rejected), w, now);
    }
  }

  lemma FinalCareful(b: Broker, t: nat, r: ActionRequest, p: Profile, i: Instance, validatedAt: Time, f: FinalInputs)
    requires ShapedJournal(b.mem) && Unrecorded(b.mem, r) && r.operationId != "" && r.deadline <= f.admitAt + GRACE
    ensures Careful(b, FinalSection(b, t, r, p, i, validatedAt, f).b, f.effectAt)
  {
    if f.definition != Some(p.definitionHash) {
      RejectPreflightCareful(b, r, EffectiveDefinitionDrift, f.firstSave, f.effectAt);
    } else if f.admitAt >= r.deadline {
      RejectPreflightCareful(b, r, DispatchExpired, f.firstSave, f.effectAt);
    } else if r.parentJobId.Some? ==> ParentStopped(b.mem, r, p) {
      AdmitCareful(b, t, r, p, i, validatedAt, f);
    }
  }

  // ---------------------------------------------------------------- first section of Execute

  lemma DuplicateCareful(b: Broker, r: ActionRequest, p: Profile, e: EnterInputs, now: Time)
    requires ShapedJournal(b.mem) && r.jobId in b.mem.attempts
    ensures Careful(b, Duplicate(b, r, p, e).b, now)
  {
    var prior := b.mem.attempts[r.jobId];
    assert Shaped(r.jobId, prior);
    if prior.digest == Some(r) {
      if prior.stage == PreflightPending {
        var interrupted := prior.(stage := Done, receipt := Rejection(r, StartPreflightInterrupted));
        PutBack(b, r.jobId, interrupted, now);
        CarefulAfterSave(b, Put(b, r.jobId, interrupted), e.save, now);
      } else if e.probe.Probed? {
        ReconcileCareful(b, r, p, e.probe.instance, e.lookAt, e.save, now);
      }
    }
  }

  lemma ReconcileCareful(b: Broker, r: ActionRequest, p: Profile, i: Instance, at: Time, w: Write, now: Time)
    requires ShapedJournal(b.mem) && r.jobId in b.mem.attempts
    requires b.mem.attempts[r.jobId].digest == Some(r) && b.mem.attempts[r.jobId].stage != PreflightPending
    ensures Careful(b, Reconciled(b, r, p, b.mem.attempts[r.jobId], i, at, w).b, now)
  {
    var prior := b.mem.attempts[r.jobId];
    assert Shaped(r.jobId, prior);
    ReconcileRewrites(b.mem, b.session, prior, p, i, at);
    var (closed, a) := Reconcile(b.mem, b.session, prior, p, i, at);
    RewritesKeep(b.mem, closed, now);
    var swept := b.(mem := closed);
    assert SameRecord(prior, closed.attempts[r.jobId]);
    PutOver(b.mem, swept, r.jobId, prior, a, now);
    CarefulAfterSave(b, Put(swept, r.jobId, a), w, now);
  }

  lemma PutOver(before: Journal, b: Broker, id: JobId, prior: Attempt, a: Attempt, now: Time)
    requires Rewrites(before, b.mem) && ShapedJournal(before) && id in before.attempts && before.attempts[id] == prior
        && SameRecord(prior, a)
    ensures KeepsRecords(before, Put(b, id, a).mem, now) && ShapedJournal(Put(b, id, a).mem)
  {
    var after := Put(b, id, a).mem;
    assert Rewrites(before, after) by {
      forall k | k in before.attempts
        ensures SameRecord(before.attempts[k], after.attempts[k])
      {
        assert SameRecord(before.attempts[k], b.mem.attempts[k]);
      }
    }
    RewritesKeep(before, after, now);
  }

  lemma StopAdmissionCareful(b: Broker, id: ProfileId, now: Time)
    requires ShapedJournal(b.mem)
    ensures Careful(b, StopAdmission(b, id), now)
  {
    CancelForStopRewrites(b.mem, id);
    RewritesKeep(b.mem, CancelForStop(b.mem, id), now);
  }

  lemma StopAdmissionUnrecorded(b: Broker, id: ProfileId, r: ActionRequest)
    requires r.jobId !in b.mem.attempts
    ensures r.jobId !in StopAdmission(b, id).mem.attempts
  {
  }

  lemma RecordSatisfiedCareful(b: Broker, r: ActionRequest, p: Profile, i: Instance, e: EnterInputs, now: Time)
    requires ShapedJournal(b.mem) && Unrecorded(b.mem, r) && r.operationId != "" && r.deadline <= e.validateAt + GRACE
    ensures Careful(b, RecordSatisfied(b, r, p, i, e).b, now)
  {
    var receipt := EvidenceOf(b, r, p, i, StatusSucceeded, if r.action == Stop then ModelStopped else ModelStarted,
        e.validateAt);
    var a := NewAttempt(r, Done, i, receipt, e.validateAt);
    PutNew(b, r, a, now);
    var stored := Put(b, r.jobId, a);
    FinishStoppedStartsRewrites(stored.mem, a);
    RewritesKeep(stored.mem, FinishStoppedStarts(stored.mem, a), now);
    KeepsTransitive(b.mem, stored.mem, FinishStoppedStarts(stored.mem, a), now);
    CarefulAfterSave(b, stored.(mem := FinishStoppedStarts(stored.mem, a)), e.save, now);
  }

  lemma RecordStartingCareful(b: Broker, r: ActionRequest, p: Profile, i: Instance, e: EnterInputs, now: Time)
    requires ShapedJournal(b.mem) && Unrecorded(b.mem, r) && r.operationId != "" && r.deadline <= e.validateAt + GRACE
    ensures Careful(b, RecordStarting(b, r, p, i, e).b, now)
  {
    var receipt := EvidenceOf(b, r, p, i, StatusRunning, ModelStarting, e.validateAt);
    var a := NewAttempt(r, EffectAttempted, i, receipt, e.validateAt);
    PutNew(b, r, a, now);
    CarefulAfterSave(b, Put(b, r.jobId, a), e.save, now);
  }

  lemma JournalPreflightCareful(b: Broker, r: ActionRequest, p: Profile, i: Instance, at: Time, w: Write, now: Time)
    requires ShapedJournal(b.mem) && r.jobId !in b.mem.attempts && r.operationId != "" && r.deadline <= at + GRACE
    ensures Careful(b, JournalPreflight(b, r, p, i, at, w), now)
  {
    var receipt := EvidenceOf(b, r, p, i, StatusAccepted, StartPreflightPending, at);
    var a := NewAttempt(r, PreflightPending, i, receipt, at);
    PutNew(b, r, a, now);
    var stored := Put(b, r.jobId, a);
    CarefulAfterSave(b, stored, w, now);
    assert Drop(Saved(stored, w), r.jobId).mem.attempts == b.mem.attempts;
  }

  lemma BeginPreflightCareful(b: Broker, t: nat, r: ActionRequest, p: Profile, i: Instance, e: EnterInputs, now: Time)
    requires ShapedJournal(b.mem) && r.jobId !in b.mem.attempts && r.operationId != ""
        && r.deadline <= e.validateAt + GRACE
    ensures Careful(b, BeginPreflight(b, t, r, p, i, e).b, now)
  {
    if r.action == Start {
      JournalPreflightCareful(b, r, p, i, e.validateAt, e.save, now);
    }
  }

  lemma DispatchCareful(b: Broker, t: nat, r: ActionRequest, p: Profile, i: Instance, e: EnterInputs)
    requires ShapedJournal(b.mem) && r.jobId !in b.mem.attempts && r.operationId != ""
        && r.deadline <= e.validateAt + GRACE
    requires e.validateAt <= e.final.admitAt
    ensures Careful(b, Dispatch(b, t, r, p, i, e).b, e.final.effectAt)
  {
    hide StopAdmission, RecordSatisfied, RecordStarting, BeginPreflight, FinalSection, KeepsRecords;
    var now := e.final.effectAt;
    var admitted := if r.action == Stop then StopAdmission(b, p.id) else b;
    CarefulIdle(b, now);
    StopAdmissionCareful(b, p.id, now);
    StopAdmissionUnrecorded(b, p.id, r);
    if AlreadySatisfied(r, p, i) {
      RecordSatisfiedCareful(admitted, r, p, i, e, now);
      CarefulAfterQuiet(b, admitted, RecordSatisfied(admitted, r, p, i, e).b, now);
    } else if r.action == Start && i.state == Starting {
      RecordStartingCareful(b, r, p, i, e, now);
    } else if r.action != Stop {
      BeginPreflightCareful(b, t, r, p, i, e, now);
    } else {
      FinalCareful(admitted, t, r, p, i, e.validateAt, e.final);
      CarefulAfterQuiet(b, admitted, FinalSection(admitted, t, r, p, i, e.validateAt, e.final).b, now);
    }
  }

  lemma ValidateQuiet(j: Journal, policy: Policy, session: string, r: ActionRequest, p: Profile, i: Instance, at: Time)
    ensures Validate(j, policy, session, r, p, i, at).0.attempts == j.attempts
        && Forward(j, Validate(j, policy, session, r, p, i, at).0)
    ensures Validate(j, policy, session, r, p, i, at).1.None? ==> LeaseValid(r, at) && r.deadline <= at + GRACE
  {
  }

  lemma EnterDirectCareful(b: Broker, t: nat, r: ActionRequest, p: Profile, e: EnterInputs)
    requires ShapedJournal(b.mem) && r.operationId != ""
    requires e.lookAt <= e.validateAt <= e.final.admitAt <= e.final.effectAt
    ensures Careful(b, EnterDirect(b, t, r, p, e).b, e.final.effectAt)
  {
    var now := e.final.effectAt;
    if r.jobId in b.mem.attempts {
      DuplicateCareful(b, r, p, e, now);
    } else {
      PruneKeeps(b.mem, e.lookAt, now);
      var pruned := b.(mem := Prune(b.mem, e.lookAt));
      if |pruned.mem.attempts| < 2048 && e.probe.Probed? {
        ValidateQuiet(pruned.mem, b.policy, b.session, r, p, e.probe.instance, e.validateAt);
        var (seen, refused) := Validate(pruned.mem, b.policy, b.session, r, p, e.probe.instance, e.validateAt);
        var checked := pruned.(mem := seen);
        assert KeepsRecords(b.mem, checked.mem, now) && ShapedJournal(checked.mem);
        if refused.None? {
          DispatchCareful(checked, t, r, p, e.probe.instance, e);
          CarefulAfterQuiet(b, checked, Dispatch(checked, t, r, p, e.probe.instance, e).b, now);
        }
      }
    }
  }

  // ---------------------------------------------------------------- second section of Execute

  lemma PreflightOthersQuiet(j: Journal, others: seq<Profile>, p: Profile, replace: bool, need: nat, available: nat,
                             probes: map<ProfileId, Probe>, now: Time)
    ensures var walked := PreflightOthers(j, others, p, replace, need, available, probes, now).0;
        walked.attempts == j.attempts && Forward(j, walked)
    decreases |others|
  {
    if others != [] && others[0].id != p.id && Conflicts(p, others[0]) && ProbeOf(probes, others[0].id).Probed? {
      var seen := Observe(j, others[0], ProbeOf(probes, others[0].id).instance, now);
      ObserveForward(j, others[0], ProbeOf(probes, others[0].id).instance, now);
      var rest := PreflightOthers(j, others, p, replace, need, available, probes, now).0;
      if Forward(seen, rest) {
        ForwardTransitive(j, seen, rest);
      }
    }
  }

  lemma ResumeCheckedCareful(b: Broker, t: nat, r: ActionRequest, p: Profile, i: Instance, x: ResumeInputs)
    requires ShapedJournal(b.mem) && Unrecorded(b.mem, r) && r.operationId != "" && x.validateAt <= x.final.admitAt
    ensures Careful(b, ResumeChecked(b, t, r, p, i, x).b, x.final.effectAt)
  {
    var now := x.final.effectAt;
    ValidateQuiet(b.mem, b.policy, b.session, r, p, i, x.validateAt);
    var (seen, refused) := Validate(b.mem, b.policy, b.session, r, p, i, x.validateAt);
    var validated := b.(mem := seen);
    if refused.Some? {
      RejectPreflightCareful(validated, r, refused.value, x.save, now);
      CarefulAfterQuiet(b, validated, RejectPreflight(validated, r, refused.value, x.save), now);
    } else {
      PreflightOthersQuiet(seen, b.policy.profiles, p, r.action == Restart, MemoryNeed(p), x.available, x.probes,
          x.validateAt);
      var (walked, busy) := Preflight(seen, b.policy, p, r.action == Restart, x.available, x.portFree, x.probes,
          x.validateAt);
      ForwardTransitive(b.mem, seen, walked);
      var inspected := b.(mem := walked);
      if busy.Some? {
        RejectPreflightCareful(inspected, r, busy.value, x.save, now);
        CarefulAfterQuiet(b, inspected, RejectPreflight(inspected, r, busy.value, x.save), now);
      } else {
        FinalCareful(inspected, t, r, p, i, x.validateAt, x.final);
        CarefulAfterQuiet(b, inspected, FinalSection(inspected, t, r, p, i, x.validateAt, x.final).b, now);
      }
    }
  }

  lemma ResumeCareful(b: Broker, t: nat, th: Thread, x: ResumeInputs)
    requires th.InPreflight? && ShapedJournal(b.mem) && th.r.operationId != "" && th.r.deadline <= x.resumeAt + GRACE
    requires x.validateAt <= x.final.admitAt
    ensures Careful(b, Resume(b, t, th, x).b, x.final.effectAt)
  {
    var now := x.final.effectAt;
    var r, p := th.r, th.p;
    var back := Unregister(EndThread(b, t), t, p.id);
    if !Unrecorded(b.mem, r) {
    } else if TokenOf(back, p.id) != th.token {
      var cancelled := NewAttempt(r, Done, th.i, Rejection(r, StartCancelledByStop), x.resumeAt);
      PutNew(back, r, cancelled, now);
      CarefulAfterSave(back, Put(back, r.jobId, cancelled), x.save, now);
      CarefulAfterQuiet(b, back, Saved(Put(back, r.jobId, cancelled), x.save), now);
    } else if x.weights.Some? {
      RejectPreflightCareful(back, r, x.weights.value, x.save, now);
      CarefulAfterQuiet(b, back, RejectPreflight(back, r, x.weights.value, x.save), now);
    } else if x.probe.ProbeFailed? {
      RejectPreflightCareful(back, r, SupervisorIdentityUnavailable, x.save, now);
      CarefulAfterQuiet(b, back, RejectPreflight(back, r, SupervisorIdentityUnavailable, x.save), now);
    } else {
      ResumeCheckedCareful(back, t, r, p, x.probe.instance, x);
      CarefulAfterQuiet(b, back, ResumeChecked(back, t, r, p, x.probe.instance, x).b, now);
    }
  }

  // ---------------------------------------------------------------- after the effect

  lemma TailRecordedCareful(b: Broker, r: ActionRequest, p: Profile, after: Instance, a: Attempt, at: Time, now: Time)
    requires ShapedJournal(b.mem) && a == AttemptOf(b.mem, r.jobId)
    ensures Careful(b, TailRecorded(b, r, p, after, a, at), now)
  {
    assert Shaped(r.jobId, a);
    var finished := TailAttempt(b, a, r, p, after, at);
    var held := b.(mem := if r.action == Restart then HoldReservation(b.mem, p.id, at) else b.mem);
    PutBack(held, r.jobId, finished, now);
    var stored := Put(held, r.jobId, finished).mem;
    CloseTailCareful(stored, finished, now);
    KeepsTransitive(b.mem, stored, FinishParent(FinishStoppedStarts(stored, finished), finished), now);
  }

  lemma TailCareful(b: Broker, t: nat, r: ActionRequest, p: Profile, after: Instance, at: Time, w: Write, now: Time)
    requires ShapedJournal(b.mem)
    ensures Careful(b, TailSection(b, t, r, p, after, at, w).b, now)
  {
    hide TailRecorded, TailAttempt, KeepsRecords, ShapedJournal, ObservedProfile, Careful;
    QuietCareful(b, EndThread(b, t), now);
    var a := AttemptOf(b.mem, r.jobId);
    if !(StopCancelled(a) || a.stoppedBy.Some?) {
      var ended := EndThread(b, t);
      var seen := ended.(mem := Observe(ended.mem, p, after, at));
      ObserveForward(b.mem, p, after, at);
      QuietKeeps(b.mem, seen.mem, now);
      TailRecordedCareful(seen, r, p, after, a, at, now);
      CarefulAfterSave(seen, TailRecorded(seen, r, p, after, a, at), w, now);
      CarefulAfterQuiet(b, seen, Saved(TailRecorded(seen, r, p, after, a, at), w), now);
    }
  }

  /** A journal whose records are untouched keeps them. */
  lemma QuietKeeps(j: Journal, j': Journal, now: Time)
    requires j'.attempts == j.attempts && Forward(j, j')
    ensures KeepsRecords(j, j', now) && (ShapedJournal(j) ==> ShapedJournal(j'))
  {
  }

  lemma CloseTailCareful(j: Journal, finished: Attempt, now: Time)
    requires ShapedJournal(j) && (finished.request == ZERO_REQUEST || finished.request.operationId != "")
    ensures var closed := FinishParent(FinishStoppedStarts(j, finished), finished);
            KeepsRecords(j, closed, now) && ShapedJournal(closed)
  {
    var swept := FinishStoppedStarts(j, finished);
    FinishStoppedStartsRewrites(j, finished);
    RewritesKeep(j, swept, now);
    FinishParentRewrites(swept, finished);
    RewritesKeep(swept, FinishParent(swept, finished), now);
    KeepsTransitive(j, swept, FinishParent(swept, finished), now);
  }

  lemma TimeoutCareful(b: Broker, t: nat, r: ActionRequest, p: Profile, last: Instance, at: Time, w: Write, now: Time)
    requires ShapedJournal(b.mem)
    ensures Careful(b, TimeoutSection(b, t, r, p, last, at, w).b, now)
  {
    var a := AttemptOf(b.mem, r.jobId);
    var unsure := a.(receipt := EvidenceOf(b, r, p, last, StatusUnknown, StopObservationTimeout, at));
    PutBack(EndThread(b, t), r.jobId, unsure, now);
    CarefulAfterSave(b, Put(EndThread(b, t), r.jobId, unsure), w, now);
  }

  // ---------------------------------------------------------------- existing coordinator

  /** A call about to submit: its request is journalled in memory and on disk, and was not before. */
  ghost predicate NewSubmission(b: Broker, b': Broker, t: nat, r: ActionRequest, now: Time) {
    && t in b'.threads && b'.threads[t].Submitting? && b'.threads[t].r == r && b'.threads - {t} == b.threads - {t}
    && !Covered(b.mem, r, now) && Covered(b'.mem, r, now) && Covered(b'.disk, r, now)
  }

  lemma ExistingJournalKeeps(b: Broker, r: ActionRequest, p: Profile, snap: Snapshot, authority: Authority, now: Time)
    requires ShapedJournal(b.mem) && r.jobId !in b.mem.attempts && r.operationId != "" && r.deadline <= now + GRACE
    requires r.parentJobId.Some? ==> ParentStopped(b.mem, r, p)
    ensures var j := ExistingJournal(b, r, p, snap, authority, now);
            KeepsRecords(b.mem, j, now) && ShapedJournal(j) && Covered(j, r, now)
  {
    var before := SnapshotInstance(snap, p);
    var receipt := EvidenceOf(b, r, p, before, StatusUnknown, EffectAttemptedReceipt, now);
    var a := NewAttempt(r, ExistingAttempted, before, receipt, now)
        .(backendRequest := Some(BackendRequestFor(r, p, snap, authority)));
    PutNew(b, r, a, now);
    var stored := Put(b, r.jobId, a).mem;
    var advanced := AdvanceExistingParent(stored, r);
    assert Rewrites(stored, advanced);
    RewritesKeep(stored, advanced, now);
    KeepsTransitive(b.mem, stored, advanced, now);
    CoveredKept(stored, advanced, r, now);
  }

  lemma PublishExistingCareful(b: Broker, ready: Broker, t: nat, r: ActionRequest, p: Profile, request: BackendRequest,
                               authority: Authority, w: Write, now: Time)
    requires KeepsRecords(b.mem, ready.mem, now) && ShapedJournal(ready.mem) && Covered(ready.mem, r, now)
        && !Covered(b.mem, r, now)
    requires ready.acts == b.acts && ready.disk == b.disk && ready.threads == b.threads - {t}
    ensures var b' := PublishExisting(ready, t, r, p, request, authority, w).b;
            Careful(b, b', now) && b'.acts == b.acts && (b'.threads == b.threads - {t}
                || NewSubmission(b, b', t, r, now))
  {
    if w == Synced {
      assert ready.threads[t := Submitting(r, p, request, authority)] - {t} == b.threads - {t};
    }
  }

  lemma QuietCareful(b: Broker, b': Broker, now: Time)
    requires ShapedJournal(b.mem) && b'.mem.attempts == b.mem.attempts && Forward(b.mem, b'.mem) && b'.disk == b.disk
        && b'.acts == b.acts
    ensures Careful(b, b', now)
  {
  }

  lemma ExistingRefusalQuiet(b: Broker, r: ActionRequest, p: Profile, snap: Snapshot, authority: Authority, at: Time)
    requires ExistingRefusal(b, r, p, snap, authority, at).None?
    ensures ExistingLeaseValid(r, at) && r.deadline <= at + GRACE
    ensures r.parentJobId.Some? ==> ParentStopped(b.mem, r, p)
  {
  }

  lemma AdmitFreshCareful(b: Broker, seen: Broker, t: nat, r: ActionRequest, p: Profile, snap: Snapshot,
                          authority: Authority, now: Time, w: Write)
    requires ShapedJournal(b.mem) && r.jobId !in b.mem.attempts && r.operationId != ""
        && now < r.deadline <= now + GRACE
    requires r.parentJobId.Some? ==> ParentStopped(seen.mem, r, p)
    requires seen.mem.attempts == b.mem.attempts && Forward(b.mem, seen.mem) && seen.disk == b.disk
        && seen.acts == b.acts && seen.threads == b.threads - {t}
    ensures var ready := seen.(mem := ExistingJournal(seen, r, p, snap, authority, now));
            var b' := PublishExisting(ready, t, r, p, BackendRequestFor(r, p, snap, authority), authority, w).b;
            Careful(b, b', now) && b'.acts == b.acts && (b'.threads == b.threads - {t}
                || NewSubmission(b, b', t, r, now))
  {
    ExistingJournalKeeps(seen, r, p, snap, authority, now);
    var ready := seen.(mem := ExistingJournal(seen, r, p, snap, authority, now));
    KeepsTransitive(b.mem, seen.mem, ready.mem, now);
    PublishExistingCareful(b, ready, t, r, p, BackendRequestFor(r, p, snap, authority), authority, w, now);
  }

  lemma AdmitSeenCareful(b: Broker, seen: Broker, t: nat, r: ActionRequest, p: Profile, snap: Snapshot,
                         authority: Authority, now: Time, w: Write)
    requires ShapedJournal(b.mem) && r.jobId !in b.mem.attempts && r.operationId != ""
    requires seen.mem.attempts == b.mem.attempts && Forward(b.mem, seen.mem) && seen.disk == b.disk
        && seen.acts == b.acts && seen.threads == b.threads - {t}
    ensures var b' := AdmitSeen(seen, t, r, p, snap, authority, now, w).b;
            Careful(b, b', now) && b'.acts == b.acts && (b'.threads == b.threads - {t}
                || NewSubmission(b, b', t, r, now))
  {
    if ExistingRefusal(seen, r, p, snap, authority, now).None? && |seen.mem.attempts| < 2048 {
      ExistingRefusalQuiet(seen, r, p, snap, authority, now);
      AdmitFreshCareful(b, seen, t, r, p, snap, authority, now, w);
    } else {
      QuietCareful(b, seen, now);
    }
  }

  lemma AdmitExistingCareful(b: Broker, t: nat, th: Thread, snap: Option<Snapshot>, now: Time, w: Write)
    requires ShapedJournal(b.mem) && th.ObservingExisting? && th.r.operationId != ""
    ensures var b' := AdmitExisting(b, t, th, snap, now, w).b;
            Careful(b, b', now) && b'.acts == b.acts && (b'.threads == b.threads - {t}
                || NewSubmission(b, b', t, th.r, now))
  {
    var ended := EndThread(b, t);
    QuietCareful(b, ended, now);
    if snap.Some? && th.r.jobId !in b.mem.attempts {
      var seen := ended.(mem := Observe(ended.mem, th.p, SnapshotInstance(snap.value, th.p), now));
      AdmitSeenCareful(b, seen, t, th.r, th.p, snap.value, th.authority, now, w);
    }
  }

  lemma CloseStartsRewrites(j: Journal, stop: Receipt, p: Profile, backend: BackendReceipt)
    ensures Rewrites(j, CloseStarts(j, stop, p, backend))
  {
  }

  lemma SettledSame(b: Broker, r: ActionRequest, p: Profile, backend: BackendReceipt, a: Attempt,
                    current: Option<Snapshot>, x: CommitInputs)
    ensures SameRecord(a, Settled(b, r, p, backend, a, current, x))
  {
  }

  lemma CommitRecordedCareful(b: Broker, r: ActionRequest, p: Profile, backend: BackendReceipt, settled: Attempt,
                              now: Time)
    requires ShapedJournal(b.mem) && SameRecord(AttemptOf(b.mem, r.jobId), settled)
    ensures Careful(b, CommitRecorded(b, r, p, backend, settled), now)
  {
    assert Shaped(r.jobId, AttemptOf(b.mem, r.jobId));
    PutBack(b, r.jobId, settled, now);
    var stored := Put(b, r.jobId, settled).mem;
    var swept := CloseStarts(stored, settled.receipt, p, backend);
    CloseStartsRewrites(stored, settled.receipt, p, backend);
    RewritesKeep(stored, swept, now);
    FinishParentRewrites(swept, settled);
    RewritesKeep(swept, FinishParent(swept, settled), now);
    KeepsTransitive(b.mem, stored, swept, now);
    KeepsTransitive(b.mem, swept, FinishParent(swept, settled), now);
  }

  lemma CommitCareful(b: Broker, t: nat, th: Thread, x: CommitInputs, now: Time)
    requires ShapedJournal(b.mem) && th.Committing?
    ensures Careful(b, Commit(b, t, th, x).b, now) && Commit(b, t, th, x).b.threads == b.threads - {t}
  {
    var ended := EndThread(b, t);
    var a := AttemptOf(b.mem, th.r.jobId);
    if CommitBlocked(b, th.r, th.p, th.backend, th.authority, x.bootId) {
      QuietCareful(b, ended, now);
    } else {
      var current := UsableSnapshot(b, a, th.p, th.current);
      var seen := if current.Some? then ended.(mem := Observe(ended.mem, th.p, JudgedInstance(a, th.p, current), x.now))
          else ended;
      SettleCareful(b, seen, th.r, th.p, th.backend, a, current, x, now);
    }
  }

  lemma SettleCareful(b: Broker, seen: Broker, r: ActionRequest, p: Profile, backend: BackendReceipt, a: Attempt,
                      current: Option<Snapshot>, x: CommitInputs, now: Time)
    requires ShapedJournal(b.mem) && seen.mem.attempts == b.mem.attempts && Forward(b.mem, seen.mem)
        && seen.disk == b.disk && seen.acts == b.acts && a == AttemptOf(b.mem, r.jobId)
    ensures var b' := Saved(CommitRecorded(seen, r, p, backend, Settled(seen, r, p, backend, a, current, x)), x.save);
            Careful(b, b', now) && b'.threads == seen.threads
  {
    var settled := Settled(seen, r, p, backend, a, current, x);
    SettledSame(seen, r, p, backend, a, current, x);
    CommitRecordedCareful(seen, r, p, backend, settled, now);
    CarefulAfterSave(seen, CommitRecorded(seen, r, p, backend, settled), x.save, now);
    CarefulAfterQuiet(b, seen, Saved(CommitRecorded(seen, r, p, backend, settled), x.save), now);
  }

  // ---------------------------------------------------------------- which calls a section starts

  lemma DispatchThreads(b: Broker, t: nat, r: ActionRequest, p: Profile, i: Instance, e: EnterInputs)
    ensures var b' := Dispatch(b, t, r, p, i, e).b;
            && SameShell(b, b')
            && (OnlyTail(b, b', t, r) || (b'.threads == b.threads[t := InPreflight(r, p, i, TokenOf(b, p.id))]
                && b'.tokens == b.tokens && b'.acts == b.acts))
  {
  }

  lemma EnterDirectThreads(b: Broker, t: nat, r: ActionRequest, p: Profile, e: EnterInputs)
    ensures var b' := EnterDirect(b, t, r, p, e).b;
            && SameShell(b, b')
            && (OnlyTail(b, b', t, r) ||
                (&& e.probe.Probed? && b'.threads == b.threads[t :=
                    InPreflight(r, p, e.probe.instance, TokenOf(b, p.id))]
                 && b'.tokens == b.tokens && b'.acts == b.acts && r.deadline <= e.validateAt + GRACE))
  {
    hide Dispatch, Duplicate, ObservedProfile;
    if r.jobId !in b.mem.attempts && e.probe.Probed? {
      var pruned := b.(mem := Prune(b.mem, e.lookAt));
      ValidateQuiet(pruned.mem, b.policy, b.session, r, p, e.probe.instance, e.validateAt);
      var (seen, refused) := Validate(pruned.mem, b.policy, b.session, r, p, e.probe.instance, e.validateAt);
      if refused.None? {
        DispatchThreads(pruned.(mem := seen), t, r, p, e.probe.instance, e);
      }
    }
  }

  lemma ResumeThreads(b: Broker, t: nat, th: Thread, x: ResumeInputs)
    requires th.InPreflight?
    ensures var b' := Resume(b, t, th, x).b;
            SameShell(b, b') && OnlyTail(EndThread(b, t), b', t, th.r) && b'.tokens == b.tokens
  {
    hide ResumeChecked, RejectPreflight, Validate, Preflight;
  }

  // ---------------------------------------------------------------- every step of the machine

  /** The request of a waiting call was validated when the call began. */
  predicate CallSane(th: Thread, now: Time) {
    match th
    case InPreflight(r, _, _, _) => r.operationId != "" && r.deadline <= now + GRACE
    case ObservingExisting(r, _, _) => r.operationId != ""
    case _ => true
  }

  ghost predicate CallsSane(b: Broker) {
    forall t :: t in b.threads ==> t < b.nextThread && CallSane(b.threads[t], b.now)
  }

  /** The call a step belongs to; steps that begin a call use the next free number. */
  function CallOf(b: Broker, s: Step): nat {
    match s
    case StepResume(t, _) => t
    case StepTail(t, _, _, _) => t
    case StepTimeout(t, _, _, _) => t
    case StepAdmitExisting(t, _, _, _) => t
    case StepSubmit(t, _, _) => t
    case StepQuery(t, _) => t
    case StepBeginFinish(t) => t
    case StepRecheck(t, _, _) => t
    case StepCommit(t, _) => t
    case StepSnapshotObserve(t, _, _, _) => t
    case StepSnapshotSave(t, _) => t
    case _ => b.nextThread
  }

  /** The request a step serves. */
  function RequestOf(b: Broker, s: Step): ActionRequest {
    if s.StepEnter? then s.r
    else if CallOf(b, s) in b.threads && !b.threads[CallOf(b, s)].Snapshotting? then b.threads[CallOf(b, s)].r
    else ZERO_REQUEST
  }

  predicate Section(s: Step) {
    !s.StepCrash? && !s.StepOpen?
  }

  /** A step leaves every other call alone, and its own call sane. */
  ghost predicate OnlyOwnCall(b: Broker, b': Broker, t: nat) {
    && b'.threads - {t} == b.threads - {t}
    && (t in b'.threads ==> t < b'.nextThread && CallSane(b'.threads[t], b'.now))
    && b.nextThread <= b'.nextThread && b.now <= b'.now && b'.running == b.running && b'.policy == b.policy
  }

  lemma OnlyTailIsOwn(b: Broker, b': Broker, t: nat, r: ActionRequest)
    requires OnlyTail(b, b', t, r) || b'.threads == b.threads - {t}
        || (t in b'.threads && b'.threads == b.threads[t := b'.threads[t]])
    ensures b'.threads - {t} == b.threads - {t}
  {
  }

  lemma EnterCareful(b: Broker, r: ActionRequest, bootId: string, e: EnterInputs)
    requires ShapedJournal(b.mem) && Enabled(b, StepEnter(r, bootId, e))
    ensures Careful(b, Enter(b, r, bootId, e).b, e.final.effectAt)
  {
    hide EnterDirect, EnterExisting, KeepsRecords;
    CarefulIdle(b, e.final.effectAt);
    var p := FindProfile(b.policy.profiles, r.params.profileId);
    if ValidId(r.jobId) && ValidId(r.operationId) && r.action != OtherAction && p.Some?
        && p.value.kind != ExistingCoordinator {
      EnterDirectCareful(b.(nextThread := b.nextThread + 1), b.nextThread, r, p.value, e);
    }
  }

  lemma EnterCalls(b: Broker, r: ActionRequest, bootId: string, e: EnterInputs)
    requires Enabled(b, StepEnter(r, bootId, e)) && b.nextThread !in b.threads
    ensures var b' := Enter(b, r, bootId, e).b.(now := e.final.effectAt);
            OnlyOwnCall(b, b', b.nextThread) && b'.published == b.published
            && (b.nextThread in b'.threads ==>
                 !b'.threads[b.nextThread].Submitting? && !b'.threads[b.nextThread].Snapshotting?)
  {
    hide EnterDirect, EnterExisting;
    var numbered := b.(nextThread := b.nextThread + 1);
    var p := FindProfile(b.policy.profiles, r.params.profileId);
    if ValidId(r.jobId) && ValidId(r.operationId) && r.action != OtherAction && p.Some?
        && p.value.kind != ExistingCoordinator {
      EnterDirectThreads(numbered, b.nextThread, r, p.value, e);
    }
    OnlyTailIsOwn(b, Enter(b, r, bootId, e).b, b.nextThread, r);
  }

  lemma ResumeStep(b: Broker, t: nat, x: ResumeInputs)
    requires ShapedJournal(b.mem) && CallsSane(b) && Enabled(b, StepResume(t, x))
    ensures var b' := Resume(b, t, b.threads[t], x).b.(now := x.final.effectAt);
            Careful(b, b', b'.now) && OnlyOwnCall(b, b', t) && b'.published == b.published
            && (t in b'.threads ==> b'.threads[t].InTail?)
  {
    hide Resume, KeepsRecords;
    var th := b.threads[t];
    assert CallSane(th, b.now);
    ResumeCareful(b, t, th, x);
    ResumeThreads(b, t, th, x);
    OnlyTailIsOwn(EndThread(b, t), Resume(b, t, th, x).b, t, th.r);
  }

  lemma TailStep(b: Broker, t: nat, after: Instance, at: Time, w: Write)
    requires ShapedJournal(b.mem) && t in b.threads && b.threads[t].InTail? && b.now <= at
    ensures var th := b.threads[t]; var b' := TailSection(b, t, th.r, th.p, after, at, w).b.(now := at);
            Careful(b, b', at) && OnlyOwnCall(b, b', t) && b'.published == b.published && b'.threads == b.threads - {t}
  {
    hide TailSection, KeepsRecords;
    TailCareful(b, t, b.threads[t].r, b.threads[t].p, after, at, w, at);
  }

  lemma TimeoutStep(b: Broker, t: nat, last: Instance, at: Time, w: Write)
    requires ShapedJournal(b.mem) && t in b.threads && b.threads[t].InTail? && b.now <= at
    ensures var th := b.threads[t]; var b' := TimeoutSection(b, t, th.r, th.p, last, at, w).b.(now := at);
            Careful(b, b', at) && OnlyOwnCall(b, b', t) && b'.published == b.published && b'.threads == b.threads - {t}
  {
    hide TimeoutSection, KeepsRecords;
    TimeoutCareful(b, t, b.threads[t].r, b.threads[t].p, last, at, w, at);
  }

  lemma AdmitExistingStep(b: Broker, t: nat, snap: Option<Snapshot>, at: Time, w: Write)
    requires ShapedJournal(b.mem) && CallsSane(b) && Enabled(b, StepAdmitExisting(t, snap, at, w))
    ensures var b' := AdmitExisting(b, t, b.threads[t], snap, at, w).b.(now := at);
            Careful(b, b', at) && OnlyOwnCall(b, b', t) && b'.published == b.published && b'.acts == b.acts
            && (b'.threads == b.threads - {t} || NewSubmission(b, b', t, b.threads[t].r, at))
  {
    hide AdmitExisting, KeepsRecords;
    assert CallSane(b.threads[t], b.now);
    AdmitExistingCareful(b, t, b.threads[t], snap, at, w);
  }

  lemma CommitStep(b: Broker, t: nat, x: CommitInputs)
    requires ShapedJournal(b.mem) && Enabled(b, StepCommit(t, x))
    ensures var b' := Commit(b, t, b.threads[t], x).b.(now := x.now);
            Careful(b, b', x.now) && OnlyOwnCall(b, b', t) && b'.published == b.published
                && b'.threads == b.threads - {t}
  {
    hide Commit, KeepsRecords;
    CommitCareful(b, t, b.threads[t], x, x.now);
  }

  lemma QuietStep(b: Broker, b': Broker, t: nat)
    requires ShapedJournal(b.mem) && b'.mem.attempts == b.mem.attempts && Forward(b.mem, b'.mem) && b'.acts == b.acts
    requires b'.disk == b.disk || b'.disk == b'.mem
    requires b'.threads - {t} == b.threads - {t} && (t in b'.threads ==>
            t < b'.nextThread && CallSane(b'.threads[t], b'.now))
    requires b.nextThread <= b'.nextThread && b.now <= b'.now && b'.running == b.running && b'.policy == b.policy
    ensures Careful(b, b', b'.now) && OnlyOwnCall(b, b', t)
  {
  }

  predicate SnapshotStep(s: Step) {
    s.StepSnapshotBegin? || s.StepSnapshotObserve? || s.StepSnapshotSave?
  }

  predicate Small(s: Step) {
    || s.StepQuery? || s.StepBeginFinish? || s.StepRecheck? || s.StepBind? || s.StepSnapshotBegin?
        || s.StepSnapshotObserve?
    || s.StepReady? || s.StepSnapshotSave? || s.StepObserve? || s.StepDies? || s.StepTick?
  }

  lemma SmallStep(b: Broker, s: Step)
    requires ShapedJournal(b.mem) && CallsSane(b) && Enabled(b, s) && Small(s)
    ensures var b' := Apply(b, s);
            Careful(b, b', b'.now) && OnlyOwnCall(b, b', CallOf(b, s)) && b'.acts == b.acts
            && (CallOf(b, s) in b'.threads ==> !b'.threads[CallOf(b, s)].Submitting?)
  {
    hide Apply, Careful, OnlyOwnCall, ShapedJournal, Enabled;
    if s.StepQuery? || s.StepBeginFinish? || s.StepRecheck? {
      SmallCall(b, s);
    } else if SnapshotStep(s) {
      SmallSnapshot(b, s);
    } else {
      SmallOther(b, s);
    }
  }

  lemma SmallCall(b: Broker, s: Step)
    requires ShapedJournal(b.mem) && CallsSane(b) && Enabled(b, s)
        && (s.StepQuery? || s.StepBeginFinish? || s.StepRecheck?)
    ensures var b' := Apply(b, s);
            Careful(b, b', b'.now) && OnlyOwnCall(b, b', CallOf(b, s)) && b'.acts == b.acts
            && (CallOf(b, s) in b'.threads ==> !b'.threads[CallOf(b, s)].Submitting?)
  {
    hide Careful, OnlyOwnCall, ShapedJournal, ValidReceipt, SnapshotMatches, Enter, Resume, TailSection, TimeoutSection,
        AdmitExisting, Submit, Commit, SnapshotObserved, SnapshotSaved, Crashed, Opened;
    var b', t := Apply(b, s), CallOf(b, s);
    assert b'.threads - {t} == b.threads - {t};
    QuietStep(b, b', t);
  }

  lemma SmallSnapshot(b: Broker, s: Step)
    requires ShapedJournal(b.mem) && CallsSane(b) && Enabled(b, s) && SnapshotStep(s)
    ensures var b' := Apply(b, s);
            Careful(b, b', b'.now) && OnlyOwnCall(b, b', CallOf(b, s)) && b'.acts == b.acts
            && (CallOf(b, s) in b'.threads ==> !b'.threads[CallOf(b, s)].Submitting?)
  {
    hide Careful, OnlyOwnCall, ShapedJournal, Observe, Enter, Resume, TailSection, TimeoutSection, AdmitExisting,
        Submit, Query, BeginFinish, Recheck, Commit, Crashed, Opened;
    var b', t := Apply(b, s), CallOf(b, s);
    assert b'.threads - {t} == b.threads - {t};
    if s.StepSnapshotObserve? { ObserveForward(b.mem, s.p, s.i, s.at); }
    QuietStep(b, b', t);
  }

  lemma SmallOther(b: Broker, s: Step)
    requires ShapedJournal(b.mem) && CallsSane(b) && Enabled(b, s)
        && (s.StepBind? || s.StepReady? || s.StepObserve? || s.StepDies? || s.StepTick?)
    ensures var b' := Apply(b, s);
            Careful(b, b', b'.now) && OnlyOwnCall(b, b', CallOf(b, s)) && b'.acts == b.acts
            && (CallOf(b, s) in b'.threads ==> !b'.threads[CallOf(b, s)].Submitting?)
  {
    hide Careful, OnlyOwnCall, ShapedJournal, Observe, Enter, Resume, TailSection, TimeoutSection, AdmitExisting,
        Submit, Query, BeginFinish, Recheck, Commit, SnapshotObserved, SnapshotSaved, Crashed, Opened;
    var b', t := Apply(b, s), CallOf(b, s);
    if s.StepObserve? { ObserveForward(b.mem, s.p, s.i, s.at); }
    QuietStep(b, b', t);
  }

  lemma SmallStepSnapshots(b: Broker, s: Step)
    requires Enabled(b, s) && Small(s) && !SnapshotStep(s) && b.nextThread !in b.threads
    ensures var b' := Apply(b, s);
            b'.published == b.published && (CallOf(b, s) in b'.threads ==> !b'.threads[CallOf(b, s)].Snapshotting?)
  {
    hide Enter, Resume, TailSection, TimeoutSection, AdmitExisting, Submit, Commit, SnapshotObserved, SnapshotSaved,
        Crashed, Opened;
  }

  /** Every critical section is careful; the submission itself happens outside the mutex and touches no journal. */
  lemma StepCareful(b: Broker, s: Step)
    requires ShapedJournal(b.mem) && CallsSane(b) && Enabled(b, s) && Section(s) && !s.StepSubmit?
    ensures Careful(b, Apply(b, s), Apply(b, s).now)
  {
    hide Enter, Resume, TailSection, TimeoutSection, AdmitExisting, Commit, KeepsRecords, ShapedJournal;
    match s
    case StepEnter(r, bootId, e) => EnterCareful(b, r, bootId, e);
    case StepResume(t, x) => ResumeStep(b, t, x);
    case StepTail(t, verified, at, w) => TailStep(b, t, if SupervisorAction(b.threads[t].r.action) == Stop then verified
        else b.threads[t].after, at, w);
    case StepTimeout(t, last, at, w) => TimeoutStep(b, t, last, at, w);
    case StepAdmitExisting(t, snap, at, w) => AdmitExistingStep(b, t, snap, at, w);
    case StepCommit(t, x) => CommitStep(b, t, x);
    case _ => SmallStep(b, s);
  }

  lemma StepCalls(b: Broker, s: Step)
    requires ShapedJournal(b.mem) && CallsSane(b) && Enabled(b, s) && Section(s)
    ensures var b' := Apply(b, s);
            OnlyOwnCall(b, b', CallOf(b, s))
            && (!SnapshotStep(s) ==> b'.published == b.published)
            && (!SnapshotStep(s) && CallOf(b, s) in b'.threads ==> !b'.threads[CallOf(b, s)].Snapshotting?)
            && (CallOf(b, s) in b'.threads && b'.threads[CallOf(b, s)].Submitting? ==>
                  s.StepAdmitExisting? && b'.acts == b.acts && NewSubmission(b, b', s.t, b.threads[s.t].r, b'.now))
  {
    hide Enter, Resume, TailSection, TimeoutSection, AdmitExisting, Commit, KeepsRecords, ShapedJournal, Query,
        BeginFinish, Recheck, SnapshotObserved, SnapshotSaved, Crashed, Opened;
    match s
    case StepEnter(r, bootId, e) => EnterCalls(b, r, bootId, e);
    case StepResume(t, x) => ResumeStep(b, t, x);
    case StepTail(t, verified, at, w) => TailStep(b, t, if SupervisorAction(b.threads[t].r.action) == Stop then verified
        else b.threads[t].after, at, w);
    case StepTimeout(t, last, at, w) => TimeoutStep(b, t, last, at, w);
    case StepAdmitExisting(t, snap, at, w) => AdmitExistingStep(b, t, snap, at, w);
    case StepCommit(t, x) => CommitStep(b, t, x);
    case StepSubmit(t, at, answer) => assert Apply(b, s).threads - {t} == b.threads - {t};
    case _ =>
      SmallStep(b, s);
      if !SnapshotStep(s) { SmallStepSnapshots(b, s); }
  }

  // ---------------------------------------------------------------- what a call goes on with

  predicate DirectProfile(policy: Policy, r: ActionRequest) {
    var p := FindProfile(policy.profiles, r.params.profileId);
    p.Some? && p.value.kind != ExistingCoordinator
  }

  lemma EnteredCall(b: Broker, r: ActionRequest, bootId: string, e: EnterInputs)
    requires b.nextThread !in b.threads
    ensures var b' := Enter(b, r, bootId, e).b; var t := b.nextThread;
            t in b'.threads ==>
              && !b'.threads[t].Snapshotting? && b'.threads[t].r == r && !b'.threads[t].Committing?
              && (b'.threads[t].InPreflight? || b'.threads[t].InTail? ==> DirectProfile(b.policy, r))
  {
    hide EnterDirect, EnterExisting;
    var p := FindProfile(b.policy.profiles, r.params.profileId);
    if p.Some? && p.value.kind != ExistingCoordinator {
      EnterDirectThreads(b.(nextThread := b.nextThread + 1), b.nextThread, r, p.value, e);
    }
  }

  /** A call keeps serving its request; it is in preflight or in its tail only on the direct path, and ready to
      commit only after its second look. */
  lemma OwnCall(b: Broker, s: Step)
    requires Enabled(b, s) && Section(s) && ShapedJournal(b.mem) && CallsSane(b)
    ensures var b' := Apply(b, s); var t := CallOf(b, s);
            t in b'.threads && !b'.threads[t].Snapshotting? ==>
              && b'.threads[t].r == RequestOf(b, s)
              && (b'.threads[t].InPreflight? || b'.threads[t].InTail? ==>
                   s.StepResume? || (s.StepEnter? && DirectProfile(b.policy, s.r)))
              && (b'.threads[t].Committing? ==> s.StepRecheck?)
  {
    hide Enter, Resume, TailSection, TimeoutSection, AdmitExisting, Submit, Query, BeginFinish, Recheck, Commit,
        SnapshotObserved, SnapshotSaved, Crashed, Opened, ShapedJournal, KeepsRecords;
    match s
    case StepEnter(r, bootId, e) => EnteredCall(b, r, bootId, e);
    case StepResume(t, x) => ResumeThreads(b, t, b.threads[t], x);
    case StepCommit(t, x) => CommitStep(b, t, x);
    case _ =>
  }
}
