/**
  Fencing generations are never reused: no two snapshots that were published
  show the same generation of a profile for different instances, across any
  crashes and failed journal writes.
*/
module BrokerFencing {
  import opened SparkTypes
  import opened BrokerRules
  import opened Broker
  import opened BrokerJournal
  import opened BrokerSections
  import BrokerOnce

  /** The journal has moved past the observation, or still holds exactly it. */
  predicate Fences(j: Journal, x: Publication) {
    var r := RuntimeOf(j, x.profile);
    r.generation > x.generation || (r.generation == x.generation && r.identity == x.identity)
  }

  /** Published, or collected by a snapshot that may still be published. */
  ghost predicate Announced(b: Broker, x: Publication) {
    x in b.published || exists t :: t in b.threads && b.threads[t].Snapshotting? && x in b.threads[t].seen
  }

  predicate Agree(x: Publication, y: Publication) {
    x.profile == y.profile && x.generation == y.generation ==> x.identity == y.identity
  }

  ghost predicate FencingInv(b: Broker) {
    && (forall x :: Announced(b, x) ==> Fences(b.mem, x))
    && (forall x :: x in b.published ==> Fences(b.disk, x))
    && (forall x, y :: Announced(b, x) && Announced(b, y) ==> Agree(x, y))
  }

  lemma FencesForward(j: Journal, j': Journal, x: Publication)
    requires Fences(j, x) && Forward(j, j')
    ensures Fences(j', x)
  {
    assert Ahead(RuntimeOf(j, x.profile), RuntimeOf(j', x.profile));
  }

  /** Steps that announce nothing new. */
  lemma NothingNew(b: Broker, b': Broker)
    requires FencingInv(b) && Forward(b.mem, b'.mem) && (b'.disk == b.disk || Forward(b.mem, b'.disk))
    requires forall x :: Announced(b', x) ==> Announced(b, x)
    requires b'.published <= b.published
    ensures FencingInv(b')
  {
    forall x | Announced(b', x)
      ensures Fences(b'.mem, x)
    {
      FencesForward(b.mem, b'.mem, x);
    }
    forall x | x in b'.published
      ensures Fences(b'.disk, x)
    {
      assert Announced(b, x);
      if b'.disk != b.disk {
        FencesForward(b.mem, b'.disk, x);
      }
    }
  }

  lemma OrdinaryStep(b: Broker, s: Step)
    requires BrokerOnce.Inv(b) && FencingInv(b) && Enabled(b, s) && Section(s) && !SnapshotStep(s)
    ensures FencingInv(Apply(b, s))
  {
    hide Apply, Enabled, ShapedJournal, CallsSane;
    var b' := Apply(b, s);
    StepCalls(b, s);
    if s.StepSubmit? {
      SubmitJournals(b, s);
    } else {
      StepCareful(b, s);
    }
    forall x | Announced(b', x)
      ensures Announced(b, x)
    {
      if x !in b.published {
        var u :| u in b'.threads && b'.threads[u].Snapshotting? && x in b'.threads[u].seen;
        BrokerOnce.OtherCallsKept(b, b', CallOf(b, s), u);
      }
    }
    NothingNew(b, b');
  }

  lemma SubmitJournals(b: Broker, s: Step)
    requires Enabled(b, s) && s.StepSubmit?
    ensures Apply(b, s).mem == b.mem && Apply(b, s).disk == b.disk
  {
  }

  /** A new observation agrees with everything announced: the journal holds its generation for its identity. */
  lemma ObservationStep(b: Broker, t: nat, p: Profile, i: Instance, at: Time)
    requires FencingInv(b) && Enabled(b, StepSnapshotObserve(t, p, i, at))
    ensures FencingInv(SnapshotObserved(b, t, p, i, at))
  {
    hide ObservedProfile;
    var b' := SnapshotObserved(b, t, p, i, at);
    var x := Publication(p.id, RuntimeOf(b'.mem, p.id).generation, i.identity);
    ObserveForward(b.mem, p, i, at);
    assert Fences(b'.mem, x);
    forall y | Announced(b', y)
      ensures y == x || (Announced(b, y) && Fences(b'.mem, y))
      ensures Agree(x, y)
    {
      if y != x {
        assert Announced(b, y) by {
          if y !in b.published {
            var u :| u in b'.threads && b'.threads[u].Snapshotting? && y in b'.threads[u].seen;
            assert u in b.threads && b.threads[u].Snapshotting? && y in b.threads[u].seen;
          }
        }
        FencesForward(b.mem, b'.mem, y);
      }
    }
  }

  /** Publication needs a synced save, so the file holds at least what memory announced. */
  lemma PublicationStep(b: Broker, t: nat, w: Write)
    requires FencingInv(b) && Enabled(b, StepSnapshotSave(t, w))
    ensures FencingInv(SnapshotSaved(b, t, w))
  {
    var b' := SnapshotSaved(b, t, w);
    forall x | Announced(b', x)
      ensures Announced(b, x)
    {
      if x !in b'.published {
        var u :| u in b'.threads && b'.threads[u].Snapshotting? && x in b'.threads[u].seen;
        assert u in b.threads;
      }
    }
  }

  lemma BeginStep(b: Broker)
    requires FencingInv(b) && b.nextThread !in b.threads && b.running
    ensures FencingInv(Apply(b, StepSnapshotBegin))
  {
    var b' := Apply(b, StepSnapshotBegin);
    forall x | Announced(b', x)
      ensures Announced(b, x)
    {
      if x !in b.published {
        var u :| u in b'.threads && b'.threads[u].Snapshotting? && x in b'.threads[u].seen;
        assert u != b.nextThread && u in b.threads;
      }
    }
    NothingNew(b, b');
  }

  /** Unpublished observations die with the process; published ones are fenced by the file. */
  lemma RestartStep(b: Broker, s: Step)
    requires BrokerOnce.Inv(b) && FencingInv(b) && Enabled(b, s) && !Section(s)
    ensures FencingInv(Apply(b, s))
  {
    hide Enter, Resume, TailSection, TimeoutSection, AdmitExisting, Submit, Query, BeginFinish, Recheck, Commit,
        SnapshotObserved, SnapshotSaved;
    var b' := Apply(b, s);
    if s.StepCrash? {
      forall x | Announced(b', x)
        ensures Announced(b, x) && Fences(b'.mem, x)
      {
      }
    } else {
      forall x | Announced(b', x)
        ensures Announced(b, x)
      {
        if x !in b.published {
          var u :| u in b'.threads && b'.threads[u].Snapshotting? && x in b'.threads[u].seen;
          assert u in b.threads;
        }
      }
      NothingNew(b, b');
    }
  }

  lemma NextKeepsFencing(b: Broker, s: Step)
    requires BrokerOnce.Inv(b) && FencingInv(b)
    ensures FencingInv(Next(b, s))
  {
    hide FencingInv, ShapedJournal, KeepsRecords, Enter, Resume, TailSection, TimeoutSection, AdmitExisting, Submit,
        Query, BeginFinish, Recheck, Commit, Crashed, Opened;
    if Enabled(b, s) {
      match s
      case StepSnapshotBegin => BeginStep(b);
      case StepSnapshotObserve(t, p, i, at) => ObservedNow(b, t, p, i, at);
      case StepSnapshotSave(t, w) => PublicationStep(b, t, w);
      case _ =>
        if Section(s) { OrdinaryStep(b, s); } else { RestartStep(b, s); }
    }
  }

  lemma ObservedNow(b: Broker, t: nat, p: Profile, i: Instance, at: Time)
    requires FencingInv(b) && Enabled(b, StepSnapshotObserve(t, p, i, at))
    ensures FencingInv(SnapshotObserved(b, t, p, i, at).(now := at))
  {
    hide SnapshotObserved;
    ObservationStep(b, t, p, i, at);
    var b1 := SnapshotObserved(b, t, p, i, at);
    assert forall x :: Announced(b1.(now := at), x) ==> Announced(b1, x);
  }

  lemma {:induction false} RunKeepsFencing(b: Broker, steps: seq<Step>)
    requires BrokerOnce.Inv(b) && FencingInv(b)
    ensures FencingInv(Run(b, steps))
    decreases |steps|
  {
    hide BrokerOnce.Inv, FencingInv, Next;
    if steps != [] {
      RunKeepsFencing(b, steps[..|steps| - 1]);
      BrokerOnce.RunKeepsInv(b, steps[..|steps| - 1]);
      NextKeepsFencing(Run(b, steps[..|steps| - 1]), steps[|steps| - 1]);
    }
  }

  lemma InitiallyFenced(policy: Policy, now: Time)
    ensures BrokerOnce.Inv(Initial(policy, now)) && FencingInv(Initial(policy, now))
  {
  }

  /** Over every run, a published generation of a profile names one instance. */
  lemma GenerationsAreNotReused(policy: Policy, now: Time, steps: seq<Step>, x: Publication, y: Publication)
    requires x in Run(Initial(policy, now), steps).published && y in Run(Initial(policy, now), steps).published
    requires x.profile == y.profile && x.generation == y.generation
    ensures x.identity == y.identity
  {
    hide Run, Initial, BrokerOnce.Inv;
    InitiallyFenced(policy, now);
    RunKeepsFencing(Initial(policy, now), steps);
    var b := Run(Initial(policy, now), steps);
    assert Announced(b, x) && Announced(b, y);
  }
}
