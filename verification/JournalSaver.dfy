/**
  The broker's journal file (`internal/spark/control.go`): a save compares the
  file with what was last published, skips an unchanged publication, remembers
  the bytes of a failed one, and refuses to overwrite anything else.
*/
module JournalSaver {
  import opened SparkTypes

  type Bytes = seq<int>

  const JOURNAL_LIMIT := 4194304

  /** The file and what the saver remembers: the last synced bytes, and after a failed publication its bytes and
      those found before it. */
  datatype State = State(path: string, savedPath: string, file: Option<Bytes>, saved: Option<Bytes>,
      uncertain: Option<Bytes>, prior: Option<Bytes>)

  datatype Outcome = Published | WriteFailed | TooLong | PathChanged | Unreadable | ChangedOutside

  function Written(file: Option<Bytes>, b: Bytes, w: Write): Option<Bytes> {
    if w == FailedOld then file else Some(b)
  }

  /** The file holds bytes this saver published or tried to publish. */
  predicate Known(s: State) {
    s.file == s.saved || (s.uncertain.Some? && (s.file == s.uncertain || (s.prior.Some? && s.file == s.prior)))
  }

  function Attempted(s: State, b: Bytes, current: Option<Bytes>, w: Write): (State, Outcome) {
    var written := s.(file := Written(s.file, b, w));
    if w == Synced then (written.(saved := Some(b), savedPath := s.path, uncertain := None, prior := None), Published)
    else (written.(uncertain := Some(b), prior := current), WriteFailed)
  }

  /** One save of the journal bytes `b`. */
  function Saving(s: State, b: Bytes, readable: bool, w: Write): (State, Outcome) {
    if |b| > JOURNAL_LIMIT then (s, TooLong)
    else if s.saved.None? then Attempted(s, b, None, w)
    else if s.path != s.savedPath then (s, PathChanged)
    else if !readable || s.file.None? then (s, Unreadable)
    else if !Known(s) then (s, ChangedOutside)
    else if s.uncertain.None? && s.file == Some(b) then (s, Published)
    else Attempted(s, b, s.file, w)
  }

  // ---------------------------------------------------------------- one save

  /** Success means the file holds exactly these bytes, and they are the last that were synced. */
  lemma PublishedIsOnDisk(s: State, b: Bytes, readable: bool, w: Write)
    requires Saving(s, b, readable, w).1 == Published
    ensures var s' := Saving(s, b, readable, w).0; s'.file == Some(b) && s'.saved == Some(b) && s'.uncertain.None?
  {
  }

  /** A plain saver: write, and report what the write did. */
  function WriteThrough(file: Option<Bytes>, b: Bytes, w: Write): (Option<Bytes>, bool) {
    (Written(file, b, w), w == Synced)
  }

  predicate Refused(o: Outcome) {
    o != Published && o != WriteFailed
  }

  // ---------------------------------------------------------------- runs

  datatype Event = Save(bytes: Bytes, readable: bool, write: Write) | Outside(file: Option<Bytes>)

  function After(s: State, e: Event): State {
    match e
    case Save(b, readable, w) => Saving(s, b, readable, w).0
    case Outside(file) => s.(file := file)
  }

  function Run(s: State, events: seq<Event>): State
    decreases |events|
  {
    if events == [] then s else After(Run(s, events[..|events| - 1]), events[|events| - 1])
  }

  /** A saver that has just been made. */
  function Made(path: string, file: Option<Bytes>): State {
    State(path, "", file, None, None, None)
  }

  // ---------------------------------------------------------------- it refines a plain saver

  /** What a plain saver has to do to follow: nothing for a refused save, otherwise a write with some outcome.  The
      skipped publication is one that succeeded. */
  function Outcomes(s: State, events: seq<Event>): seq<Option<Write>>
    decreases |events|
  {
    if events == [] then []
    else
      var front, e := events[..|events| - 1], events[|events| - 1];
      Outcomes(s, front) +
      [if e.Outside? then None
       else
         var o := Saving(Run(s, front), e.bytes, e.readable, e.write).1;
         if Refused(o) then None else Some(if o == Published then Synced else e.write)]
  }

  /** The file under a plain saver with the given outcomes. */
  function Plain(file: Option<Bytes>, events: seq<Event>, outcomes: seq<Option<Write>>): Option<Bytes>
    requires |outcomes| == |events|
    decreases |events|
  {
    if events == [] then file
    else
      var n := |events| - 1;
      var before := Plain(file, events[..n], outcomes[..n]);
      match events[n]
      case Outside(other) => other
      case Save(b, _, _) => if outcomes[n].None? then before else WriteThrough(before, b, outcomes[n].value).0
  }

  lemma SaveFollows(s: State, b: Bytes, readable: bool, w: Write)
    ensures var (s', o) := Saving(s, b, readable, w); var v := if o == Published then Synced else w;
            && (Refused(o) ==> s' == s)
            && (!Refused(o) ==> (s'.file, o == Published) == WriteThrough(s.file, b, v) && (v == w || v == Synced))
  {
  }

  /** Refused or not, skipped or not: to whoever saves, every save is a write that succeeded or left old or new
      bytes. */
  lemma EverySaveIsAWrite(s: State, b: Bytes, readable: bool, w: Write)
    ensures exists v :: (Saving(s, b, readable, w).0.file,
        Saving(s, b, readable, w).1 == Published) == WriteThrough(s.file, b, v)
  {
    var (s', o) := Saving(s, b, readable, w);
    var v := if Refused(o) then FailedOld else if o == Published then Synced else w;
    assert (s'.file, o == Published) == WriteThrough(s.file, b, v);
  }

  lemma {:induction false} OutcomesLength(s: State, events: seq<Event>)
    ensures |Outcomes(s, events)| == |events|
    decreases |events|
  {
    if events != [] {
      OutcomesLength(s, events[..|events| - 1]);
    }
  }

  /** Over every run, with failed writes and outside writers, the file is what a plain saver leaves that does nothing
      for the refused saves and writes through for all others, with the same outcome or a success where nothing had
      to be written. */
  lemma {:induction false} RefinesWriteThrough(s: State, events: seq<Event>)
    ensures |Outcomes(s, events)| == |events| && Run(s, events).file == Plain(s.file, events, Outcomes(s, events))
    decreases |events|
  {
    hide Saving;
    OutcomesLength(s, events);
    if events != [] {
      var n := |events| - 1;
      var front, e := events[..n], events[n];
      RefinesWriteThrough(s, front);
      OutcomesLength(s, front);
      assert Outcomes(s, events)[..n] == Outcomes(s, front);
      if e.Save? {
        SaveFollows(Run(s, front), e.bytes, e.readable, e.write);
      }
    }
  }

  // ---------------------------------------------------------------- it never refuses itself

  /** Published at least once, to this path, and the file is one the saver recognises. */
  predicate Settled(s: State) {
    s.saved.Some? && s.path == s.savedPath && s.file.Some? && Known(s)
  }

  lemma SaveKeepsSettled(s: State, b: Bytes, readable: bool, w: Write)
    requires Settled(s)
    ensures Settled(Saving(s, b, readable, w).0)
  {
  }

  lemma {:induction false} RunKeepsSettled(s: State, events: seq<Event>)
    requires Settled(s) && forall i :: 0 <= i < |events| ==> events[i].Save?
    ensures Settled(Run(s, events))
    decreases |events|
  {
    if events != [] {
      RunKeepsSettled(s, events[..|events| - 1]);
      var last := events[|events| - 1];
      SaveKeepsSettled(Run(s, events[..|events| - 1]), last.bytes, last.readable, last.write);
    }
  }

  /** Without an outside writer, no sequence of saves, failed with old or new bytes left behind or not, ever makes
      the saver refuse: the next save succeeds exactly when its write does or nothing had to be written. */
  lemma NeverRefusesItself(s: State, events: seq<Event>, b: Bytes, w: Write)
    requires Settled(s) && (forall i :: 0 <= i < |events| ==> events[i].Save?) && |b| <= JOURNAL_LIMIT
    ensures var now := Run(s, events); var o := Saving(now, b, true, w).1;
            !Refused(o) && (o == Published <==> w == Synced || (now.uncertain.None? && now.file == Some(b)))
  {
    RunKeepsSettled(s, events);
  }

  // ---------------------------------------------------------------- foreign bytes

  /** Some save of the run wrote these bytes or tried to. */
  ghost predicate Tried(events: seq<Event>, b: Bytes) {
    exists i :: 0 <= i < |events| && events[i].Save? && events[i].bytes == b
  }

  /** Everything the saver remembers comes from saves of the run. */
  ghost predicate Own(s: State, events: seq<Event>) {
    && (s.saved.Some? ==> Tried(events, s.saved.value)) && (s.uncertain.Some? ==> Tried(events, s.uncertain.value))
    && (s.prior.Some? ==> Tried(events, s.prior.value))
  }

  lemma TriedLonger(events: seq<Event>, b: Bytes)
    requires events != []
    ensures Tried(events[..|events| - 1], b) ==> Tried(events, b)
    ensures events[|events| - 1].Save? ==> Tried(events, events[|events| - 1].bytes)
  {
    var front := events[..|events| - 1];
    if i :| 0 <= i < |front| && front[i].Save? && front[i].bytes == b {
      assert events[i] == front[i];
    }
  }

  lemma {:induction false} RunIsOwn(path: string, file: Option<Bytes>, events: seq<Event>)
    ensures Own(Run(Made(path, file), events), events)
    decreases |events|
  {
    hide Tried;
    if events != [] {
      var front, e := events[..|events| - 1], events[|events| - 1];
      RunIsOwn(path, file, front);
      var s := Run(Made(path, file), front);
      forall b: Bytes
        ensures Tried(front, b) ==> Tried(events, b)
      {
        TriedLonger(events, b);
      }
      TriedLonger(events, []);
    }
  }

  /** Over every run since the saver was made, with outside writers and failed writes: after the first publication,
      what a save overwrites are bytes some earlier save of the run wrote or tried to write. */
  lemma OverwritesOnlyItsOwn(path: string, file: Option<Bytes>, events: seq<Event>, b: Bytes, readable: bool, w: Write)
    requires var s := Run(Made(path, file), events); s.saved.Some? && Saving(s, b, readable, w).0.file != s.file
    ensures var s := Run(Made(path, file), events); s.file.Some? && Tried(events, s.file.value)
  {
    hide Tried, Run;
    RunIsOwn(path, file, events);
  }

  /** So bytes that no save of the run ever wrote or tried to write are kept by every further save: nothing changes
      and none succeeds, until someone outside changes the file. */
  lemma {:induction false} ForeignBytesKept(path: string, file: Option<Bytes>, before: seq<Event>, foreign: Bytes,
                                            after: seq<Event>)
    requires var s := Run(Made(path, file), before); s.saved.Some? && s.file == Some(foreign) && !Tried(before, foreign)
    requires forall i :: 0 <= i < |after| ==> after[i].Save?
    ensures Run(Run(Made(path, file), before), after) == Run(Made(path, file), before)
    decreases |after|
  {
    hide Tried;
    RunIsOwn(path, file, before);
    if after != [] {
      ForeignBytesKept(path, file, before, foreign, after[..|after| - 1]);
      UnknownIsKept(Run(Made(path, file), before), after[|after| - 1]);
    }
  }

  lemma UnknownIsKept(s: State, e: Event)
    requires s.saved.Some? && !Known(s) && e.Save?
    ensures After(s, e) == s && Saving(s, e.bytes, e.readable, e.write).1 != Published
  {
  }

  /** Some save of the run was published. */
  predicate SomePublished(s: State, events: seq<Event>)
    decreases |events|
  {
    && events != []
    && var front, e := events[..|events| - 1], events[|events| - 1];
       SomePublished(s, front) || (e.Save? && Saving(Run(s, front), e.bytes, e.readable, e.write).1 == Published)
  }

  /** The saver remembers published bytes exactly when some save was published. */
  lemma {:induction false} SavedOncePublished(path: string, file: Option<Bytes>, events: seq<Event>)
    ensures Run(Made(path, file), events).saved.Some? <==> SomePublished(Made(path, file), events)
    decreases |events|
  {
    if events != [] {
      SavedOncePublished(path, file, events[..|events| - 1]);
    }
  }

  /** Over every run since the saver was made: bytes that no save of the run wrote or tried to write are overwritten
      by a save exactly when none was published before, the new bytes differ and are not too long, and its write gets
      through. */
  lemma ForeignOverwrittenExactly(path: string, file: Option<Bytes>, events: seq<Event>, foreign: Bytes, b: Bytes,
                                  readable: bool, w: Write)
    requires Run(Made(path, file), events).file == Some(foreign) && !Tried(events, foreign)
    ensures Saving(Run(Made(path, file), events), b, readable, w).0.file != Some(foreign) <==>
            !SomePublished(Made(path, file), events) && |b| <= JOURNAL_LIMIT && b != foreign && w != FailedOld
  {
    hide Tried, Run;
    RunIsOwn(path, file, events);
    SavedOncePublished(path, file, events);
  }

  /** The very first save overwrites whatever it finds. */
  lemma FirstSaveOverwrites(path: string, foreign: Bytes, b: Bytes, readable: bool)
    requires |b| <= JOURNAL_LIMIT && b != foreign
    ensures !Tried([], foreign) && Run(Made(path, Some(foreign)), [Save(b, readable, Synced)]).file == Some(b)
  {
    assert [Save(b, readable, Synced)][..0] == [];
  }

  // ---------------------------------------------------------------- the saver

  class Journal {
    var path: string
    var savedPath: string
    var file: Option<Bytes>
    var saved: Option<Bytes>
    var uncertain: Option<Bytes>
    var prior: Option<Bytes>

    function Now(): State
      reads this
    {
      State(path, savedPath, file, saved, uncertain, prior)
    }

    constructor (path: string, file: Option<Bytes>)
      ensures Now() == Made(path, file)
    {
      this.path, savedPath, this.file, saved, uncertain, prior := path, "", file, None, None, None;
    }

    /** `readable` is whether the private file could be read back, `w` what the write will do. */
    method SaveLocked(b: Bytes, readable: bool, w: Write) returns (o: Outcome)
      modifies this
      ensures (Now(), o) == Saving(old(Now()), b, readable, w)
    {
      if |b| > JOURNAL_LIMIT {
        return TooLong;
      }
      var current: Option<Bytes> := None;
      if saved.Some? {
        if path != savedPath {
          return PathChanged;
        }
        if !readable || file.None? {
          return Unreadable;
        }
        current := file;
        var knownUncertain := uncertain.Some? && (current == uncertain || (prior.Some? && current == prior));
        if current != saved && !knownUncertain {
          return ChangedOutside;
        }
        if uncertain.None? && current == Some(b) {
          return Published;
        }
      }
      file := Written(file, b, w);
      if w != Synced {
        uncertain, prior := Some(b), current;
        return WriteFailed;
      }
      saved, savedPath, uncertain, prior := Some(b), path, None, None;
      return Published;
    }
  }
}
