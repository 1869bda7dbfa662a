/**
  At most once: over every run, with concurrent duplicates, crashes, failed
  journal writes and pruning, no request reaches the supervisor or the existing
  coordinator twice.
*/
module BrokerOnce {
  import opened SparkTypes
  import opened Broker
  import opened BrokerJournal
  import opened BrokerSections

  ghost predicate Unacted(acts: seq<Act>, r: ActionRequest) {
    forall i :: 0 <= i < |acts| ==> acts[i].request != r
  }

  /** The property: every request is acted on at most once. */
  ghost predicate ActsDistinct(acts: seq<Act>) {
    forall i, j :: 0 <= i < j < |acts| ==> acts[i].request != acts[j].request
  }

  /** Memory and file both answer for every act. */
  ghost predicate ActsCovered(b: Broker) {
    forall i :: 0 <= i < |b.acts| ==>
        Covered(b.mem, b.acts[i].request, b.now) && Covered(b.disk, b.acts[i].request, b.now)
  }

  /** A call about to submit is journalled, and its request was not acted on unless the lease is over. */
  ghost predicate SubmitterOk(b: Broker, r: ActionRequest) {
    Covered(b.mem, r, b.now) && Covered(b.disk, r, b.now) && (r.deadline <= b.now || Unacted(b.acts, r))
  }

  ghost predicate SubmittersOk(b: Broker) {
    forall t :: t in b.threads && b.threads[t].Submitting? ==> SubmitterOk(b, b.threads[t].r)
  }

  predicate BothSubmit(th: Thread, other: Thread) {
    th.Submitting? && other.Submitting? && th.r == other.r
  }

  /** Two calls about to submit the same request: only after its lease. */
  ghost predicate SubmittersDistinct(b: Broker) {
    forall t, u :: t in b.threads && u in b.threads && t != u && BothSubmit(b.threads[t], b.threads[u]) ==>
      b.threads[t].r.deadline <= b.now
  }

  ghost predicate Inv(b: Broker) {
    && ShapedJournal(b.mem) && ShapedJournal(b.disk) && (!b.running ==> b.mem == b.disk)
    && CallsSane(b) && ActsCovered(b) && ActsDistinct(b.acts) && SubmittersOk(b) && SubmittersDistinct(b)
  }

  /** Coverage carries over a careful section, in memory and in the file. */
  lemma CoverageKept(b: Broker, b': Broker, r: ActionRequest)
    requires Careful(b, b', b'.now) && b.now <= b'.now
    requires Covered(b.mem, r, b.now) && Covered(b.disk, r, b.now)
    ensures Covered(b'.mem, r, b'.now) && Covered(b'.disk, r, b'.now)
    ensures Covered(b.mem, r, b'.now)
  {
    CoveredKept(b.mem, b'.mem, r, b'.now);
    if b'.disk != b.disk {
      CoveredKept(b.mem, b'.disk, r, b'.now);
    }
  }

  lemma ActsKept(b: Broker, b': Broker)
    requires Inv(b) && Careful(b, b', b'.now) && b.now <= b'.now
    ensures ActsCovered(b') && ActsDistinct(b'.acts)
  {
    hide KeepsRecords, ShapedJournal, CallsSane;
    forall i | 0 <= i < |b.acts|
      ensures b'.acts[i] == b.acts[i]
      ensures Covered(b'.mem, b.acts[i].request, b'.now) && Covered(b'.disk, b.acts[i].request, b'.now)
          && Covered(b.mem, b.acts[i].request, b'.now)
    {
      CoverageKept(b, b', b.acts[i].request);
      assert b'.acts[i] == b'.acts[..|b.acts|][i];
    }
  }

  lemma SubmitterKept(b: Broker, b': Broker, r: ActionRequest)
    requires Careful(b, b', b'.now) && b.now <= b'.now && SubmitterOk(b, r)
    ensures SubmitterOk(b', r)
  {
    hide KeepsRecords, ShapedJournal;
    CoverageKept(b, b', r);
    if r.deadline > b'.now && b'.acts != b.acts {
      assert forall i :: 0 <= i < |b.acts| ==> b'.acts[i] == b'.acts[..|b.acts|][i];
    }
  }

  lemma OtherCallsKept(b: Broker, b': Broker, t: nat, u: nat)
    requires OnlyOwnCall(b, b', t) && u != t && u in b'.threads
    ensures u in b.threads && b'.threads[u] == b.threads[u]
  {
    assert u in b'.threads - {t} && u in b.threads - {t};
    assert (b'.threads - {t})[u] == (b.threads - {t})[u];
  }

  lemma CallsKept(b: Broker, b': Broker, t: nat)
    requires CallsSane(b) && OnlyOwnCall(b, b', t)
    ensures CallsSane(b')
  {
    forall u | u in b'.threads
      ensures u < b'.nextThread && CallSane(b'.threads[u], b'.now)
    {
      if u != t {
        OtherCallsKept(b, b', t, u);
        assert CallSane(b.threads[u], b.now);
      }
    }
  }

  /** A careful section keeps the submitters; a new one enters only with a fresh request. */
  lemma SubmittersKept(b: Broker, b': Broker, t: nat)
    requires Inv(b) && Careful(b, b', b'.now) && OnlyOwnCall(b, b', t)
    requires t in b'.threads && b'.threads[t].Submitting? ==>
            b'.acts == b.acts && NewSubmission(b, b', t, b'.threads[t].r, b'.now)
    ensures SubmittersOk(b') && SubmittersDistinct(b')
  {
    hide KeepsRecords, ShapedJournal, CallsSane;
    forall u | u in b'.threads && b'.threads[u].Submitting?
      ensures SubmitterOk(b', b'.threads[u].r)
      ensures u != t ==> u in b.threads && b.threads[u] == b'.threads[u] && Covered(b.mem, b.threads[u].r, b'.now)
    {
      if u != t {
        OtherCallsKept(b, b', t, u);
        SubmitterKept(b, b', b.threads[u].r);
        CoverageKept(b, b', b.threads[u].r);
      } else {
        forall i | 0 <= i < |b.acts|
          ensures b.acts[i].request != b'.threads[t].r
        {
          CoverageKept(b, b', b.acts[i].request);
        }
      }
    }
  }

  /** A request about to be submitted stays so when another one is submitted. */
  lemma SubmitterAfter(b: Broker, b': Broker, q: ActionRequest, act: Act)
    requires SubmitterOk(b, q) && q != act.request
    requires b'.acts == b.acts + [act] && b'.mem == b.mem && b'.disk == b.disk && b.now <= b'.now
    ensures SubmitterOk(b', q)
  {
  }

  lemma CoveredLater(b: Broker, b': Broker, act: Act)
    requires ActsCovered(b) && ActsDistinct(b.acts) && SubmitterOk(b, act.request) && act.request.deadline > b'.now
    requires b'.acts == b.acts + [act] && b'.mem == b.mem && b'.disk == b.disk && b.now <= b'.now
    ensures ActsCovered(b') && ActsDistinct(b'.acts)
  {
  }

  /** The submission itself: the request was journalled and unacted, so it is new. */
  lemma SubmitKeepsInv(b: Broker, t: nat, at: Time, answer: Option<BackendReceipt>)
    requires Inv(b) && Enabled(b, StepSubmit(t, at, answer)) && at < b.threads[t].r.deadline
    ensures var b' := Submit(b, t, b.threads[t], at, answer).b.(now := at);
            ActsCovered(b') && ActsDistinct(b'.acts) && SubmittersOk(b') && SubmittersDistinct(b')
  {
    hide ShapedJournal, CallsSane, ActsCovered, ActsDistinct, SubmitterOk;
    var b' := Submit(b, t, b.threads[t], at, answer).b.(now := at);
    var r := b.threads[t].r;
    assert SubmitterOk(b, r);
    CoveredLater(b, b', Submission(r, at, b.threads[t].request));
    forall u | u in b'.threads && b'.threads[u].Submitting?
      ensures u in b.threads && b.threads[u] == b'.threads[u] && SubmitterOk(b', b'.threads[u].r)
    {
      assert u != t;
      assert SubmitterOk(b, b.threads[u].r) && b.threads[u].r != r;
      SubmitterAfter(b, b', b.threads[u].r, Submission(r, at, b.threads[t].request));
    }
  }

  lemma SectionKeepsInv(b: Broker, s: Step)
    requires Inv(b) && Enabled(b, s) && Section(s)
    ensures Inv(Apply(b, s))
  {
    hide Apply, Enabled, KeepsRecords, ShapedJournal, CallsSane, ActsCovered, SubmittersOk, SubmittersDistinct;
    var b' := Apply(b, s);
    StepCalls(b, s);
    CallsKept(b, b', CallOf(b, s));
    if s.StepSubmit? {
      SubmitStepKeepsInv(b, s);
    } else {
      StepCareful(b, s);
      ActsKept(b, b');
      SubmittersKept(b, b', CallOf(b, s));
      RunningKept(b, s);
    }
  }

  lemma RunningKept(b: Broker, s: Step)
    requires Enabled(b, s) && Section(s) && !s.StepSubmit? && (!b.running ==> b.mem == b.disk)
    ensures !b.running ==> Apply(b, s).mem == Apply(b, s).disk
  {
  }

  lemma SubmitStepKeepsInv(b: Broker, s: Step)
    requires Inv(b) && Enabled(b, s) && s.StepSubmit?
    ensures var b' := Apply(b, s);
            && b'.mem == b.mem && b'.disk == b.disk && b'.running == b.running
            && ActsCovered(b') && ActsDistinct(b'.acts) && SubmittersOk(b') && SubmittersDistinct(b')
  {
    hide Enter, Resume, TailSection, TimeoutSection, AdmitExisting, Query, BeginFinish, Recheck, Commit,
        SnapshotObserved, SnapshotSaved, Crashed, Opened;
    if s.at < b.threads[s.t].r.deadline {
      SubmitKeepsInv(b, s.t, s.at, s.answer);
    }
  }

  /** A crash leaves the journal file, and the file answers for every act. */
  lemma CrashKeepsInv(b: Broker)
    requires Inv(b)
    ensures Inv(Crashed(b))
  {
  }

  lemma OpenKeepsInv(b: Broker, policy: Policy, epoch: string, w: Write)
    requires Inv(b) && !b.running
    ensures Inv(Opened(b, policy, epoch, w))
  {
    var b' := Opened(b, policy, epoch, w);
    assert b'.mem.attempts == b.mem.attempts && b'.disk.attempts == b.disk.attempts;
    forall t | t in b'.threads && b'.threads[t].Submitting?
      ensures SubmitterOk(b', b'.threads[t].r)
    {
      assert SubmitterOk(b, b.threads[t].r);
    }
  }

  lemma NextKeepsInv(b: Broker, s: Step)
    requires Inv(b)
    ensures Inv(Next(b, s))
  {
    hide Inv, Crashed, Opened;
    if Enabled(b, s) {
      if s.StepCrash? {
        CrashKeepsInv(b);
      } else if s.StepOpen? {
        OpenKeepsInv(b, s.policy, s.epoch, s.save);
      } else {
        SectionKeepsInv(b, s);
      }
    }
  }

  lemma {:induction false} RunKeepsInv(b: Broker, steps: seq<Step>)
    requires Inv(b)
    ensures Inv(Run(b, steps))
    decreases |steps|
  {
    hide Inv, Next;
    if steps != [] {
      RunKeepsInv(b, steps[..|steps| - 1]);
      NextKeepsInv(Run(b, steps[..|steps| - 1]), steps[|steps| - 1]);
    }
  }

  /** Over every run from the start, no request is carried out or submitted twice. */
  lemma AtMostOnce(policy: Policy, now: Time, steps: seq<Step>)
    ensures ActsDistinct(Run(Initial(policy, now), steps).acts)
  {
    RunKeepsInv(Initial(policy, now), steps);
  }
}
