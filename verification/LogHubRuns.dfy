/**
  The log hub over whole runs: whatever viewers, records, closings and removals
  come in whatever order, every viewer is sent exactly the records that were
  appended to its profile after it joined, in order, until it is disconnected;
  and nothing is ever sent to or closed after a channel was closed.
*/
module LogHubRuns {
  import opened LogRetention
  import opened LogHub

  /** The redactor's texts are no longer than a line. */
  predicate Cut(e: Event) {
    e.Appending? ==> |e.text| <= MAX_LINE
  }

  predicate AllCut(events: seq<Event>) {
    forall i :: 0 <= i < |events| ==> Cut(events[i])
  }

  function Run(h: Hub, events: seq<Event>): Hub
    decreases |events|
  {
    if events == [] then h else After(Run(h, events[..|events| - 1]), events[|events| - 1])
  }

  // ---------------------------------------------------------------- every event keeps the hub valid

  lemma SubscribeKeepsValid(h: Hub, key: string)
    requires HubValid(h)
    ensures HubValid(SubscribedHub(h, key))
  {
    hide HubValid, Admits, Tail;
    if Admits(h, key) {
      if key in h.profiles {
        JoinKeepsValid(h, key);
      } else {
        BeginKeepsValid(h, key);
      }
    }
  }

  lemma FewerOpen(channels: map<nat, Channel>, after: map<nat, Channel>)
    requires after.Keys == channels.Keys && forall id :: id in channels && channels[id].closed ==> after[id].closed
    ensures |OpenIds(after)| <= |OpenIds(channels)|
  {
    var few, many := OpenIds(after), OpenIds(channels);
    assert few <= many;
    assert many == few + (many - few);
  }

  lemma AppendKeepsValid(h: Hub, key: string, text: string, gap: bool)
    requires HubValid(h) && |text| <= MAX_LINE
    ensures HubValid(AppendedTo(h, key, text, gap))
  {
    hide HubOk, OpenIds, Kept, LongestFit, Short, Staying, AfterAppend;
    if key in h.profiles {
      var p := h.profiles[key];
      var r := Record(p.seq_ + 1, text, gap);
      SourceOf(h.profiles, h.channels, h.histories, key);
      KeptIsLongest(p.records, Size(r), PROFILE_BYTES, MAX_RECORDS);
      AppendedHub(h.profiles, h.channels, h.histories, key, Kept(p.records, Size(r), PROFILE_BYTES, MAX_RECORDS), r);
      ShortAppended(h.histories, p.instance, r);
      SameSize(h.profiles, key, AfterAppend(p, Kept(p.records, Size(r), PROFILE_BYTES, MAX_RECORDS), r,
          Staying(h.channels, p.viewers)));
      FewerOpen(h.channels, Broadcast(h.channels, p.viewers, r));
    }
  }

  lemma LeaveKeepsValid(h: Hub, key: string, id: nat)
    requires HubValid(h)
    ensures HubValid(After(h, Leaving(key, id)))
  {
    hide HubOk, OpenIds;
    if key in h.profiles && id in h.profiles[key].viewers {
      LeftHub(h.profiles, h.channels, h.histories, key, id);
      SameSize(h.profiles, key, WithoutViewer(h.profiles[key], id));
      FewerOpen(h.channels, h.channels[id := h.channels[id].(closed := true)]);
    }
  }

  lemma CloseKeepsValid(h: Hub, key: string, reason: string)
    requires HubValid(h)
    ensures HubValid(After(h, Closing(key, reason)))
  {
    hide HubOk, OpenIds;
    if key in h.profiles && !h.profiles[key].closing {
      EndedHub(h.profiles, h.channels, h.histories, key, ClosingMarker(reason));
      SameSize(h.profiles, key, GivenUp(h.profiles[key]));
      FewerOpen(h.channels, EndedAll(h.channels, h.profiles[key].viewers, ClosingMarker(reason)));
    }
  }

  lemma RestKeepsValid(h: Hub, e: Event)
    requires HubValid(h) && (e.Removing? || e.Receiving?)
    ensures HubValid(After(h, e))
  {
    hide HubOk;
    match e
    case Removing(key, instance) =>
      if key in h.profiles && h.profiles[key].instance == instance && h.profiles[key].closing {
        RemovedHub(h.profiles, h.channels, h.histories, key);
        assert (h.profiles - {key}).Keys == h.profiles.Keys - {key};
        assert |(h.profiles - {key}).Keys| == |h.profiles - {key}| && |h.profiles.Keys| == |h.profiles|;
      }
    case Receiving(id) =>
      if id in h.channels && h.channels[id].received < |h.channels[id].sent| {
        ReceivedHub(h.profiles, h.channels, h.histories, id);
        FewerOpen(h.channels, h.channels[id := h.channels[id].(received := h.channels[id].received + 1)]);
      }
  }

  lemma EventKeepsValid(h: Hub, e: Event)
    requires HubValid(h) && Cut(e)
    ensures HubValid(After(h, e))
  {
    hide HubValid, SubscribedHub, AppendedTo;
    match e
    case Subscribing(key) => SubscribeKeepsValid(h, key);
    case Appending(key, text, gap) => AppendKeepsValid(h, key, text, gap);
    case Leaving(key, id) => LeaveKeepsValid(h, key, id);
    case Closing(key, reason) => CloseKeepsValid(h, key, reason);
    case _ => RestKeepsValid(h, e);
  }

  lemma {:induction false} RunKeepsValid(h: Hub, events: seq<Event>)
    requires HubValid(h) && AllCut(events)
    ensures HubValid(Run(h, events))
    decreases |events|
  {
    hide HubValid, After, Cut;
    if events != [] {
      RunKeepsValid(h, events[..|events| - 1]);
      EventKeepsValid(Run(h, events[..|events| - 1]), events[|events| - 1]);
    }
  }

  lemma EmptyIsValid()
    ensures HubValid(EMPTY_HUB)
  {
    assert OpenIds(map[]) == {};
  }

  /** Over every run the hub stays within the host budget, and its counter is the sum over its sources. */
  lemma AlwaysWithinBudget(events: seq<Event>)
    requires AllCut(events)
    ensures var h := Run(EMPTY_HUB, events);
            && HubValid(h) && 0 <= BytesUsed(h.profiles, h.profiles.Keys) <= HOST_BYTES
            && CountViewers(h.profiles, h.profiles.Keys) == |OpenIds(h.channels)| <= MAX_VIEWERS
                && |h.profiles| <= MAX_PROFILES
  {
    hide Run, BytesUsed, CountViewers, HubOk, OpenIds;
    EmptyIsValid();
    RunKeepsValid(EMPTY_HUB, events);
    var h := Run(EMPTY_HUB, events);
    HubWithinBudget(h);
    CounterIsSum(h.profiles, h.channels, h.histories);
  }

  // ---------------------------------------------------------------- what a viewer is sent

  /** A record as it was appended, without its number. */
  datatype Line = Line(text: string, gap: bool)

  function Lines(records: seq<Record>): seq<Line> {
    if records == [] then [] else Lines(records[..|records| - 1]) + [Line(records[|records| - 1].text,
        records[|records| - 1].gap)]
  }

  /** The lines appended to profile `key`, read off the events alone. */
  function LinesFor(e: Event, key: string): seq<Line> {
    if e.Appending? && e.key == key then [Line(e.text, e.gap)] else []
  }

  function AppendedLines(events: seq<Event>, key: string): seq<Line>
    decreases |events|
  {
    if events == [] then [] else AppendedLines(events[..|events| - 1], key) + LinesFor(events[|events| - 1], key)
  }

  lemma LinesSnoc(records: seq<Record>, r: Record)
    ensures Lines(records + [r]) == Lines(records) + [Line(r.text, r.gap)]
  {
    assert (records + [r])[..|records|] == records;
  }

  /** Viewer `id` of `key` was sent the first of `lines`; while it is connected, all of them. */
  predicate Follows(h: Hub, key: string, id: nat, lines: seq<Line>) {
    && id in h.channels
    && Lines(Records(h.channels[id])) <= lines
    && (!h.channels[id].closed ==> !h.channels[id].marked && Lines(h.channels[id].sent) == lines)
    && (!h.channels[id].closed ==> key in h.profiles && id in h.profiles[key].viewers)
  }

  /** A viewer is in the list of no other source, and a disconnected one in none. */
  lemma OnlyItsSource(h: Hub, key: string, id: nat, other: string)
    requires HubValid(h) && id in h.channels && other in h.profiles && id in h.profiles[other].viewers
    ensures !h.channels[id].closed && (key in h.profiles && id in h.profiles[key].viewers ==> key == other)
  {
    hide SourceOk, ChannelOk, Numbered, Short;
    assert Connected(h.channels, id, h.profiles[other]);
    if key in h.profiles && id in h.profiles[key].viewers {
      assert Connected(h.channels, id, h.profiles[key]);
    }
  }

  lemma FollowsAppend(h: Hub, key: string, id: nat, lines: seq<Line>, to: string, text: string, gap: bool)
    requires HubValid(h) && Follows(h, key, id, lines)
    ensures Follows(AppendedTo(h, to, text, gap), key, id, lines + LinesFor(Appending(to, text, gap), key))
  {
    hide HubOk, HubValid, Kept, Lines;
    var c := h.channels[id];
    if to in h.profiles {
      SourceIsThere(h, to);
      var p := h.profiles[to];
      var r := Record(p.seq_ + 1, text, gap);
      if id in p.viewers {
        OnlyItsSource(h, key, id, to);
        LinesSnoc(c.sent, r);
      }
    }
  }

  lemma SourceIsThere(h: Hub, key: string)
    requires HubValid(h) && key in h.profiles
    ensures h.profiles[key].instance < |h.histories|
  {
    SourceOf(h.profiles, h.channels, h.histories, key);
  }

  lemma FollowsSubscribe(h: Hub, key: string, id: nat, lines: seq<Line>, joined: string)
    requires HubValid(h) && Follows(h, key, id, lines)
    ensures Follows(SubscribedHub(h, joined), key, id, lines)
  {
    hide HubOk, Lines, Tail, OpenIds, Short;
  }

  lemma FollowsLeave(h: Hub, key: string, id: nat, lines: seq<Line>, from: string, viewer: nat)
    requires HubValid(h) && Follows(h, key, id, lines)
    ensures Follows(After(h, Leaving(from, viewer)), key, id, lines)
  {
    hide HubOk, HubValid, Lines;
  }

  lemma FollowsClose(h: Hub, key: string, id: nat, lines: seq<Line>, closed: string, reason: string)
    requires HubValid(h) && Follows(h, key, id, lines)
    ensures Follows(After(h, Closing(closed, reason)), key, id, lines)
  {
    hide HubOk, HubValid, Lines;
    var c, marker := h.channels[id], ClosingMarker(reason);
    if closed in h.profiles && id in h.profiles[closed].viewers {
      OnlyItsSource(h, key, id, closed);
      assert (c.sent + [marker])[..|c.sent|] == c.sent;
    }
  }

  lemma FollowsRest(h: Hub, key: string, id: nat, lines: seq<Line>, e: Event)
    requires HubValid(h) && Follows(h, key, id, lines) && (e.Removing? || e.Receiving?)
    ensures Follows(After(h, e), key, id, lines)
  {
    hide HubOk, HubValid, Lines;
    if e.Removing? && e.key in h.profiles && h.profiles[e.key].closing {
      GivenUpHasNone(h, e.key);
    }
  }

  lemma GivenUpHasNone(h: Hub, key: string)
    requires HubValid(h) && key in h.profiles && h.profiles[key].closing
    ensures h.profiles[key].viewers == {}
  {
    SourceOf(h.profiles, h.channels, h.histories, key);
  }

  lemma FollowsEvent(h: Hub, key: string, id: nat, lines: seq<Line>, e: Event)
    requires HubValid(h) && Follows(h, key, id, lines)
    ensures Follows(After(h, e), key, id, lines + LinesFor(e, key))
  {
    hide HubValid, Follows, SubscribedHub, AppendedTo;
    assert lines + [] == lines;
    match e
    case Subscribing(joined) => FollowsSubscribe(h, key, id, lines, joined);
    case Appending(to, text, gap) => FollowsAppend(h, key, id, lines, to, text, gap);
    case Leaving(from, viewer) => FollowsLeave(h, key, id, lines, from, viewer);
    case Closing(closed, reason) => FollowsClose(h, key, id, lines, closed, reason);
    case _ => FollowsRest(h, key, id, lines, e);
  }

  lemma {:induction false} RunFollows(h: Hub, key: string, id: nat, events: seq<Event>)
    requires HubValid(h) && AllCut(events) && Follows(h, key, id, [])
    ensures Follows(Run(h, events), key, id, AppendedLines(events, key))
    decreases |events|
  {
    hide HubValid, Follows, After, Cut;
    if events != [] {
      var front := events[..|events| - 1];
      RunFollows(h, key, id, front);
      RunKeepsValid(h, front);
      FollowsEvent(Run(h, front), key, id, AppendedLines(front, key), events[|events| - 1]);
    }
  }

  lemma JoinedFollows(h: Hub, key: string)
    requires HubValid(h) && Admits(h, key)
    ensures Follows(SubscribedHub(h, key), key, h.next + 1, [])
  {
    hide HubOk, OpenIds, Tail, Short;
  }

  /** The viewer was given the longest tail of what the profile retained. */
  ghost predicate JoinedWith(h: Hub, joined: Hub, key: string, id: nat) {
    id in joined.channels && (key in h.profiles ==> IsTail(h.profiles[key].records, joined.channels[id].tail))
  }

  /** What the viewer was sent is a prefix of `lines`, all of them while it is connected, and what it received are
      the first of that. */
  predicate SentSince(h: Hub, id: nat, lines: seq<Line>) {
    && id in h.channels
    && var c := h.channels[id];
       Lines(Records(c)) <= lines && (!c.closed ==> Lines(c.sent) == lines)
           && c.received <= |c.sent| <= c.received + CHANNEL_ROOM
  }

  /** After any run let a viewer join a profile, and let anything happen afterwards.  The viewer started with the
      tail of what was retained; what it was sent since is a prefix of the lines appended to its profile, read off
      the events; while it is connected it was sent all of them; and what it received are the first of what it was
      sent. */
  lemma ViewerIsSentWhatIsAppended(before: seq<Event>, key: string, after: seq<Event>)
    requires AllCut(before) && AllCut(after) && Admits(Run(EMPTY_HUB, before), key)
    ensures var h := Run(EMPTY_HUB, before); var joined := After(h, Subscribing(key));
            && JoinedWith(h, joined, key, h.next + 1)
            && SentSince(Run(joined, after), h.next + 1, AppendedLines(after, key))
  {
    hide Run, HubValid, Follows, Admits, Tail, AppendedLines, SentSince, IsTail;
    EmptyIsValid();
    RunKeepsValid(EMPTY_HUB, before);
    var h := Run(EMPTY_HUB, before);
    JoinedFollows(h, key);
    EventKeepsValid(h, Subscribing(key));
    var joined := After(h, Subscribing(key));
    RunFollows(joined, key, h.next + 1, after);
    RunKeepsValid(joined, after);
    FollowsGives(Run(joined, after), key, h.next + 1, AppendedLines(after, key));
    FollowsGives(joined, key, h.next + 1, []);
    if key in h.profiles {
      TailIsTail(h.profiles[key].records);
    }
  }

  lemma FollowsGives(h: Hub, key: string, id: nat, lines: seq<Line>)
    requires HubValid(h) && Follows(h, key, id, lines)
    ensures id in h.channels && SentSince(h, id, lines)
  {
    assert ChannelOk(h.channels[id], h.histories[h.channels[id].instance]);
  }

  /** In every reachable hub the tail and the records a viewer was sent are consecutively numbered. */
  lemma ViewerNumbersAreConsecutive(events: seq<Event>, id: nat, k: nat)
    requires AllCut(events) && id in Run(EMPTY_HUB, events).channels
    requires var c := Run(EMPTY_HUB, events).channels[id]; k < |c.tail| + |Records(c)|
    ensures var c := Run(EMPTY_HUB, events).channels[id];
            |c.tail| <= c.start && (c.tail + Records(c))[k].sequence == c.start - |c.tail| + k + 1
  {
    hide Run;
    EmptyIsValid();
    RunKeepsValid(EMPTY_HUB, events);
    var h := Run(EMPTY_HUB, events);
    assert ChannelOk(h.channels[id], h.histories[h.channels[id].instance])
        && Numbered(h.histories[h.channels[id].instance]);
  }

  // ---------------------------------------------------------------- closed channels

  lemma ClosedIsUntouched(h: Hub, e: Event, id: nat)
    requires HubValid(h) && id in h.channels && h.channels[id].closed
    ensures var h' := After(h, e);
            id in h'.channels && h'.channels[id].closed && h'.channels[id].sent == h.channels[id].sent
    ensures forall key :: key in h.profiles ==> id !in h.profiles[key].viewers
  {
    hide HubOk, Tail, Kept, OpenIds, Short, AfterAppend, Staying, WithoutViewer;
    forall key | key in h.profiles
      ensures id !in h.profiles[key].viewers
    {
      if id in h.profiles[key].viewers {
        OnlyItsSource(h, key, id, key);
      }
    }
  }

  /** Over every run: once a channel is closed nothing is ever sent to it, and it is not closed again. */
  lemma {:induction false} ClosedForGood(h: Hub, events: seq<Event>, id: nat)
    requires HubValid(h) && AllCut(events) && id in h.channels && h.channels[id].closed
    ensures var end := Run(h, events);
            && id in end.channels && end.channels[id].closed && end.channels[id].sent == h.channels[id].sent
            && forall key :: key in end.profiles ==> id !in end.profiles[key].viewers
    decreases |events|
  {
    hide HubValid, After, Cut;
    if events == [] {
      ClosedIsUntouched(h, Receiving(id), id);
    } else {
      var front := events[..|events| - 1];
      ClosedForGood(h, front, id);
      RunKeepsValid(h, front);
      ClosedIsUntouched(Run(h, front), events[|events| - 1], id);
      EventKeepsValid(Run(h, front), events[|events| - 1]);
      ClosedIsUntouched(Run(h, events), Receiving(id), id);
    }
  }
}
