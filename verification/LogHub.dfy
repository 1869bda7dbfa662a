/**
  The host's log hub (`internal/spark/logs.go`): one source per profile, its
  retained records, and a bounded channel per viewer.

  A channel is a value in `channels`, kept after it is closed so that what its
  viewer was given can still be spoken of.  Sending and closing require an open
  channel, so no method can do either twice.  `histories` is an auxiliary
  history: every record each source has accepted.
*/
module LogHub {
  import opened LogRetention

  const PROFILE_BYTES := 262144
  const HOST_BYTES := 1048576
  const MAX_PROFILES := 4
  const MAX_VIEWERS := 16
  const MAX_RECORDS := 4096
  const MAX_LINE := 16384
  const CHANNEL_ROOM := 64

  /** A viewer's channel: the tail it started from, everything sent to it, and how much was received. `instance` and
      `start` say from which source, and after how many of its records, it began. */
  datatype Channel = Channel(tail: seq<Record>, sent: seq<Record>, received: nat, closed: bool, marked: bool,
      instance: nat, start: nat)

  /** A source with its retained records; `instance` tells two sources of the same profile apart. */
  datatype Source = Source(records: seq<Record>, used: int, seq_: nat, viewers: set<nat>, closing: bool, instance: nat)

  datatype Subscription = ViewerLimit | CleanupPending | ProfileLimit | Subscribed(id: nat, tail: seq<Record>)

  // ---------------------------------------------------------------- single channels and sources

  predicate HasRoom(c: Channel) {
    |c.sent| - c.received < CHANNEL_ROOM
  }

  /** A record offered to a viewer: queued if there is room, otherwise the viewer is disconnected. */
  function Offered(c: Channel, r: Record): Channel {
    if HasRoom(c) then c.(sent := c.sent + [r]) else c.(closed := true)
  }

  /** A stream that ends: a closing marker if there is room, then the channel is closed. */
  function Ended(c: Channel, marker: Record): Channel {
    if HasRoom(c) then c.(sent := c.sent + [marker], closed := true, marked := true) else c.(closed := true)
  }

  /** The records of the source that the channel was sent, without a closing marker. */
  function Records(c: Channel): seq<Record> {
    if c.marked && |c.sent| > 0 then c.sent[..|c.sent| - 1] else c.sent
  }

  ghost predicate Numbered(history: seq<Record>) {
    forall i :: 0 <= i < |history| ==> history[i].sequence == i + 1
  }

  /** Tail and sent records are one contiguous run of the history, and the queue is bounded. */
  predicate ChannelOk(c: Channel, history: seq<Record>) {
    && c.received <= |c.sent| && |c.sent| - c.received <= CHANNEL_ROOM
    && (c.marked ==> c.closed && |c.sent| > 0)
    && |c.tail| <= c.start && c.start + |Records(c)| <= |history|
    && c.tail + Records(c) == history[c.start - |c.tail|..c.start + |Records(c)|]
    && TailFits(c.tail)
  }

  /** The retained records are the newest accepted ones, counted right and within budget. */
  predicate SourceOk(p: Source, history: seq<Record>) {
    && p.seq_ == |history| && p.used == Total(p.records) && |p.records| <= MAX_RECORDS
    && (p.used <= PROFILE_BYTES || |p.records| == 1)
    && (p.closing ==> p.records == [] && p.viewers == {})
    && (!p.closing ==> p.viewers != {})
    && |p.records| <= |history| && p.records == history[|history| - |p.records|..]
  }

  function OpenIds(channels: map<nat, Channel>): set<nat> {
    set id | id in channels && !channels[id].closed
  }

  lemma OfferedOk(c: Channel, r: Record, history: seq<Record>)
    requires ChannelOk(c, history) && !c.closed && c.start + |c.sent| == |history|
    ensures ChannelOk(Offered(c, r), history + [r])
    ensures !Offered(c, r).closed ==> c.start + |Offered(c, r).sent| == |history + [r]|
  {
    var longer := history + [r];
    assert history[c.start - |c.tail|..c.start + |c.sent|] == longer[c.start - |c.tail|..c.start + |c.sent|];
    assert longer[c.start - |c.tail|..c.start + |c.sent|] + [r] == longer[c.start - |c.tail|..c.start + |c.sent| + 1];
    assert c.tail + (c.sent + [r]) == (c.tail + c.sent) + [r];
  }

  lemma OtherOk(c: Channel, r: Record, history: seq<Record>)
    requires ChannelOk(c, history)
    ensures ChannelOk(c, history + [r])
  {
    var from, to := c.start - |c.tail|, c.start + |Records(c)|;
    assert (history + [r])[from..to] == history[from..to];
  }

  lemma EndedOk(c: Channel, marker: Record, history: seq<Record>)
    requires ChannelOk(c, history) && !c.closed
    ensures ChannelOk(Ended(c, marker), history)
  {
    assert (c.sent + [marker])[..|c.sent|] == c.sent;
  }

  lemma AppendedOk(p: Source, kept: seq<Record>, r: Record, history: seq<Record>)
    requires SourceOk(p, history) && !p.closing && LongestFit(p.records, kept, Size(r), PROFILE_BYTES, MAX_RECORDS)
    ensures SourceOk(p.(records := kept + [r], used := Total(kept) + Size(r), seq_ := p.seq_ + 1), history + [r])
  {
    KeptWithNew(p.records, kept, r, PROFILE_BYTES, MAX_RECORDS);
    var k :| LongestFrom(p.records, kept, k, Size(r), PROFILE_BYTES, MAX_RECORDS);
    assert kept == history[|history| - |kept|..];
    assert (history + [r])[|history| - |kept|..] == kept + [r];
  }

  // ---------------------------------------------------------------- the whole hub

  ghost predicate SourcesOk(profiles: map<string, Source>, histories: seq<seq<Record>>) {
    forall k :: k in profiles ==>
        profiles[k].instance < |histories| && SourceOk(profiles[k], histories[profiles[k].instance])
  }

  ghost predicate Distinct(profiles: map<string, Source>) {
    forall k, l :: k in profiles && l in profiles && k != l ==> profiles[k].instance != profiles[l].instance
  }

  ghost predicate ChannelsOk(channels: map<nat, Channel>, histories: seq<seq<Record>>) {
    forall id :: id in channels ==>
        channels[id].instance < |histories| && ChannelOk(channels[id], histories[channels[id].instance])
  }

  /** A connected viewer is open, belongs to this source and has been sent everything accepted since it joined. */
  predicate Connected(channels: map<nat, Channel>, id: nat, p: Source) {
    id in channels && !channels[id].closed && channels[id].instance == p.instance
        && channels[id].start + |channels[id].sent| == p.seq_
  }

  ghost predicate ViewersOk(profiles: map<string, Source>, channels: map<nat, Channel>) {
    forall k, id :: k in profiles && id in profiles[k].viewers ==> Connected(channels, id, profiles[k])
  }

  ghost predicate Views(profiles: map<string, Source>, k: string, id: nat) {
    k in profiles && id in profiles[k].viewers
  }

  ghost predicate Owned(profiles: map<string, Source>, channels: map<nat, Channel>) {
    forall id :: id in channels && !channels[id].closed ==> exists k :: Views(profiles, k, id)
  }

  ghost predicate HubOk(profiles: map<string, Source>, channels: map<nat, Channel>, histories: seq<seq<Record>>) {
    && SourcesOk(profiles, histories) && Distinct(profiles) && ChannelsOk(channels, histories)
    && ViewersOk(profiles, channels) && Owned(profiles, channels) && forall i :: 0 <= i < |histories| ==>
        Numbered(histories[i])
  }

  /** The record is offered to every viewer in `ids`. */
  function Broadcast(channels: map<nat, Channel>, ids: set<nat>, r: Record): map<nat, Channel> {
    map id | id in channels :: if id in ids then Offered(channels[id], r) else channels[id]
  }

  function Staying(channels: map<nat, Channel>, ids: set<nat>): set<nat> {
    set id | id in ids && id in channels && HasRoom(channels[id])
  }

  /** The source after an accepted record; without viewers left it gives everything up. */
  function AfterAppend(p: Source, kept: seq<Record>, r: Record, staying: set<nat>): Source {
    if staying == {} then Source([], 0, p.seq_ + 1, {}, true, p.instance)
    else Source(kept + [r], Total(kept) + Size(r), p.seq_ + 1, staying, false, p.instance)
  }

  lemma BroadcastOk(profiles: map<string, Source>, channels: map<nat, Channel>, histories: seq<seq<Record>>,
                    key: string, r: Record)
    requires HubOk(profiles, channels, histories) && key in profiles
    ensures ChannelsOk(Broadcast(channels, profiles[key].viewers, r),
        histories[profiles[key].instance := histories[profiles[key].instance] + [r]])
  {
    hide Owned, Numbered, Distinct, ChannelOk, SourceOk;
    var p := profiles[key];
    var after, longer := Broadcast(channels, p.viewers, r), histories[p.instance := histories[p.instance] + [r]];
    forall id | id in after
      ensures after[id].instance < |longer| && ChannelOk(after[id], longer[after[id].instance])
    {
      var c := channels[id];
      if id in p.viewers {
        assert Connected(channels, id, p);
        assert p.seq_ == |histories[p.instance]| by { SourceCounts(p, histories[p.instance]); }
        OfferedOk(c, r, histories[p.instance]);
      } else if c.instance == p.instance {
        OtherOk(c, r, histories[p.instance]);
      }
    }
  }

  lemma SourceCounts(p: Source, history: seq<Record>)
    requires SourceOk(p, history)
    ensures p.seq_ == |history| && p.used == Total(p.records)
  {
  }

  lemma AppendedSources(profiles: map<string, Source>, histories: seq<seq<Record>>, key: string, kept: seq<Record>,
                        r: Record, staying: set<nat>)
    requires SourcesOk(profiles, histories) && Distinct(profiles) && key in profiles
        && LongestFit(profiles[key].records, kept, Size(r), PROFILE_BYTES, MAX_RECORDS)
    requires staying <= profiles[key].viewers
    ensures var p := profiles[key];
            SourcesOk(profiles[key := AfterAppend(p, kept, r, staying)],
                histories[p.instance := histories[p.instance] + [r]])
            && Distinct(profiles[key := AfterAppend(p, kept, r, staying)])
  {
    hide SourceOk, AfterAppend, LongestFit;
    var p := profiles[key];
    AfterAppendOk(p, kept, r, histories[p.instance], staying);
  }

  lemma AfterAppendOk(p: Source, kept: seq<Record>, r: Record, history: seq<Record>, staying: set<nat>)
    requires SourceOk(p, history) && LongestFit(p.records, kept, Size(r), PROFILE_BYTES, MAX_RECORDS)
        && staying <= p.viewers
    ensures SourceOk(AfterAppend(p, kept, r, staying), history + [r])
        && AfterAppend(p, kept, r, staying).instance == p.instance
  {
    hide LongestFit;
    if staying != {} {
      AppendedOk(p, kept, r, history);
    } else {
      NothingKeptOk(history + [r], p.instance);
    }
  }

  lemma NothingKeptOk(history: seq<Record>, instance: nat)
    ensures SourceOk(Source([], 0, |history|, {}, true, instance), history)
  {
    assert history[|history|..] == [];
  }

  lemma AppendedViewers(profiles: map<string, Source>, channels: map<nat, Channel>, histories: seq<seq<Record>>,
                        key: string, kept: seq<Record>, r: Record)
    requires HubOk(profiles, channels, histories) && key in profiles
    ensures var p := profiles[key]; var staying := Staying(channels, p.viewers);
        var after := profiles[key := AfterAppend(p, kept, r, staying)];
            ViewersOk(after, Broadcast(channels, p.viewers, r)) && Owned(after, Broadcast(channels, p.viewers, r))
  {
    hide SourceOk, ChannelOk, Numbered;
    var p := profiles[key];
    var staying := Staying(channels, p.viewers);
    var after, sent := profiles[key := AfterAppend(p, kept, r, staying)], Broadcast(channels, p.viewers, r);
    forall k, id | k in after && id in after[k].viewers
      ensures Connected(sent, id, after[k])
    {
      assert Connected(channels, id, profiles[k]);
      assert id in p.viewers ==> Connected(channels, id, p);
    }
    forall id | id in sent && !sent[id].closed
      ensures exists k :: Views(after, k, id)
    {
      var k :| Views(profiles, k, id);
      assert Views(after, k, id);
    }
  }

  lemma AppendedHub(profiles: map<string, Source>, channels: map<nat, Channel>, histories: seq<seq<Record>>,
                    key: string, kept: seq<Record>, r: Record)
    requires HubOk(profiles, channels, histories) && key in profiles && r.sequence == profiles[key].seq_ + 1
    requires LongestFit(profiles[key].records, kept, Size(r), PROFILE_BYTES, MAX_RECORDS)
    ensures var p := profiles[key];
            HubOk(profiles[key := AfterAppend(p, kept, r, Staying(channels, p.viewers))],
                Broadcast(channels, p.viewers, r), histories[p.instance := histories[p.instance] + [r]])
  {
    hide Owned, ViewersOk, ChannelsOk, Distinct, ChannelOk;
    var p := profiles[key];
    BroadcastOk(profiles, channels, histories, key, r);
    AppendedSources(profiles, histories, key, kept, r, Staying(channels, p.viewers));
    AppendedViewers(profiles, channels, histories, key, kept, r);
  }

  /** A source that has given everything up. */
  function GivenUp(p: Source): Source {
    p.(records := [], used := 0, viewers := {}, closing := true)
  }

  function WithoutViewer(p: Source, id: nat): Source {
    if p.viewers - {id} == {} then GivenUp(p) else p.(viewers := p.viewers - {id})
  }

  lemma GivenUpOk(p: Source, history: seq<Record>)
    requires SourceOk(p, history)
    ensures SourceOk(GivenUp(p), history)
  {
    assert history[|history|..] == [];
  }

  lemma JoinedHub(profiles: map<string, Source>, channels: map<nat, Channel>, histories: seq<seq<Record>>, key: string,
                  id: nat, tail: seq<Record>)
    requires HubOk(profiles, channels, histories) && key in profiles && !profiles[key].closing && id !in channels
        && IsTail(profiles[key].records, tail)
    ensures var p := profiles[key];
            HubOk(profiles[key := p.(viewers := p.viewers + {id})],
                channels[id := Channel(tail, [], 0, false, false, p.instance, p.seq_)], histories)
  {
    hide Numbered, SourceOk, ChannelOk, IsTail;
    var p := profiles[key];
    var c := Channel(tail, [], 0, false, false, p.instance, p.seq_);
    var joined, opened_ := profiles[key := p.(viewers := p.viewers + {id})], channels[id := c];
    JoinedChannelOk(p, tail, histories[p.instance]);
    assert SourceOk(p.(viewers := p.viewers + {id}), histories[p.instance]) by { ViewersAside(p, p.viewers + {id},
        histories[p.instance]); }
    forall k, v | k in joined && v in joined[k].viewers
      ensures Connected(opened_, v, joined[k])
    {
      if v in profiles[k].viewers {
        assert Connected(channels, v, profiles[k]);
      }
    }
    forall v | v in opened_ && !opened_[v].closed
      ensures exists k :: Views(joined, k, v)
    {
      if v == id {
        assert Views(joined, key, id);
      } else {
        var k :| Views(profiles, k, v);
        assert Views(joined, k, v);
      }
    }
  }

  lemma ViewersAside(p: Source, viewers: set<nat>, history: seq<Record>)
    requires SourceOk(p, history) && !p.closing && viewers != {}
    ensures SourceOk(p.(viewers := viewers), history)
  {
  }

  lemma WithoutViewerOk(p: Source, id: nat, history: seq<Record>)
    requires SourceOk(p, history) && id in p.viewers
    ensures SourceOk(WithoutViewer(p, id), history)
  {
    GivenUpOk(p, history);
  }

  lemma ClosedOk(c: Channel, history: seq<Record>)
    requires ChannelOk(c, history)
    ensures ChannelOk(c.(closed := true), history)
  {
  }

  lemma JoinedChannelOk(p: Source, tail: seq<Record>, history: seq<Record>)
    requires SourceOk(p, history) && IsTail(p.records, tail)
    ensures ChannelOk(Channel(tail, [], 0, false, false, p.instance, p.seq_), history)
  {
    hide TailFits, Total;
    var k :| TailFrom(p.records, tail, k);
    TailOfHistory(p.records, tail, history, k);
    assert tail + [] == tail;
  }

  lemma TailOfHistory(records: seq<Record>, tail: seq<Record>, history: seq<Record>, k: int)
    requires |records| <= |history| && records == history[|history| - |records|..] && 0 <= k <= |records|
        && tail == records[k..]
    ensures |tail| <= |history| && tail == history[|history| - |tail|..|history|]
  {
  }

  lemma FreshHub(profiles: map<string, Source>, channels: map<nat, Channel>, histories: seq<seq<Record>>, key: string,
                 id: nat)
    requires HubOk(profiles, channels, histories) && key !in profiles && id !in channels
    ensures HubOk(profiles[key := Source([], 0, 0, {id}, false, |histories|)],
        channels[id := Channel([], [], 0, false, false, |histories|, 0)], histories + [[]])
  {
    hide SourcesOk, ChannelsOk, ViewersOk, Owned, Distinct;
    var made, c := Source([], 0, 0, {id}, false, |histories|), Channel([], [], 0, false, false, |histories|, 0);
    EmptyOk(id, |histories|);
    FreshSources(profiles, histories, key, made);
    FreshChannels(channels, histories, id, c);
    FreshViewers(profiles, channels, key, id, made, c);
  }

  lemma FreshSources(profiles: map<string, Source>, histories: seq<seq<Record>>, key: string, made: Source)
    requires SourcesOk(profiles, histories) && Distinct(profiles) && key !in profiles && made.instance == |histories|
        && SourceOk(made, [])
    ensures SourcesOk(profiles[key := made], histories + [[]]) && Distinct(profiles[key := made])
  {
    hide SourceOk;
  }

  lemma FreshChannels(channels: map<nat, Channel>, histories: seq<seq<Record>>, id: nat, c: Channel)
    requires ChannelsOk(channels, histories) && id !in channels && c.instance == |histories| && ChannelOk(c, [])
    ensures ChannelsOk(channels[id := c], histories + [[]])
  {
    hide ChannelOk;
  }

  lemma FreshViewers(profiles: map<string, Source>, channels: map<nat, Channel>, key: string, id: nat, made: Source,
                     c: Channel)
    requires ViewersOk(profiles, channels) && Owned(profiles, channels) && key !in profiles && id !in channels
    requires made.viewers == {id} && !c.closed && c.instance == made.instance && c.start + |c.sent| == made.seq_
    ensures ViewersOk(profiles[key := made], channels[id := c]) && Owned(profiles[key := made], channels[id := c])
  {
    var joined, opened_ := profiles[key := made], channels[id := c];
    forall k, v | k in joined && v in joined[k].viewers
      ensures Connected(opened_, v, joined[k])
    {
      if k != key {
        assert Connected(channels, v, profiles[k]);
      }
    }
    forall v | v in opened_ && !opened_[v].closed
      ensures exists k :: Views(joined, k, v)
    {
      if v == id {
        assert Views(joined, key, id);
      } else {
        var k :| Views(profiles, k, v);
        assert Views(joined, k, v);
      }
    }
  }

  lemma EmptyOk(id: nat, instance: nat)
    ensures SourceOk(Source([], 0, 0, {id}, false, instance), [])
        && ChannelOk(Channel([], [], 0, false, false, instance, 0), [])
  {
  }

  lemma LeftHub(profiles: map<string, Source>, channels: map<nat, Channel>, histories: seq<seq<Record>>, key: string,
                id: nat)
    requires HubOk(profiles, channels, histories) && key in profiles && id in profiles[key].viewers
    ensures id in channels && HubOk(profiles[key := WithoutViewer(profiles[key], id)],
        channels[id := channels[id].(closed := true)], histories)
  {
    hide Numbered, SourceOk, ChannelOk;
    var p := profiles[key];
    assert Connected(channels, id, p);
    var left, closed := profiles[key := WithoutViewer(p, id)], channels[id := channels[id].(closed := true)];
    WithoutViewerOk(p, id, histories[p.instance]);
    ClosedOk(channels[id], histories[p.instance]);
    forall k, v | k in left && v in left[k].viewers
      ensures Connected(closed, v, left[k])
    {
      assert Connected(channels, v, profiles[k]);
    }
    forall v | v in closed && !closed[v].closed
      ensures exists k :: Views(left, k, v)
    {
      var k :| Views(profiles, k, v);
      assert Views(left, k, v);
    }
  }

  /** Every viewer of the source is ended. */
  function EndedAll(channels: map<nat, Channel>, ids: set<nat>, marker: Record): map<nat, Channel> {
    map id | id in channels :: if id in ids then Ended(channels[id], marker) else channels[id]
  }

  lemma EndedHub(profiles: map<string, Source>, channels: map<nat, Channel>, histories: seq<seq<Record>>, key: string,
                 marker: Record)
    requires HubOk(profiles, channels, histories) && key in profiles
    ensures HubOk(profiles[key := GivenUp(profiles[key])], EndedAll(channels, profiles[key].viewers, marker), histories)
  {
    hide Numbered, ChannelOk, SourceOk;
    var p := profiles[key];
    var ended, closed := profiles[key := GivenUp(p)], EndedAll(channels, p.viewers, marker);
    GivenUpOk(p, histories[p.instance]);
    forall id | id in closed
      ensures closed[id].instance < |histories| && ChannelOk(closed[id], histories[closed[id].instance])
    {
      if id in p.viewers {
        assert Connected(channels, id, p);
        EndedOk(channels[id], marker, histories[p.instance]);
      }
    }
    forall k, v | k in ended && v in ended[k].viewers
      ensures Connected(closed, v, ended[k])
    {
      assert Connected(channels, v, profiles[k]);
      assert v in p.viewers ==> Connected(channels, v, p);
    }
    forall v | v in closed && !closed[v].closed
      ensures exists k :: Views(ended, k, v)
    {
      var k :| Views(profiles, k, v);
      assert Views(ended, k, v);
    }
  }

  lemma RemovedHub(profiles: map<string, Source>, channels: map<nat, Channel>, histories: seq<seq<Record>>, key: string)
    requires HubOk(profiles, channels, histories) && key in profiles && profiles[key].closing
    ensures HubOk(profiles - {key}, channels, histories)
  {
    hide Numbered, ChannelOk;
    forall v | v in channels && !channels[v].closed
      ensures exists k :: Views(profiles - {key}, k, v)
    {
      var k :| Views(profiles, k, v);
      assert Views(profiles - {key}, k, v);
    }
  }

  lemma ReceivedHub(profiles: map<string, Source>, channels: map<nat, Channel>, histories: seq<seq<Record>>, id: nat)
    requires HubOk(profiles, channels, histories) && id in channels && channels[id].received < |channels[id].sent|
    ensures HubOk(profiles, channels[id := channels[id].(received := channels[id].received + 1)], histories)
  {
    hide Numbered, SourceOk, ChannelOk;
    var taken := channels[id := channels[id].(received := channels[id].received + 1)];
    ReceivedOk(channels[id], histories[channels[id].instance]);
    forall k, v | k in profiles && v in profiles[k].viewers
      ensures Connected(taken, v, profiles[k])
    {
      assert Connected(channels, v, profiles[k]);
    }
    forall v | v in taken && !taken[v].closed
      ensures exists k :: Views(profiles, k, v)
    {
      assert v in channels && !channels[v].closed;
    }
  }

  lemma ReceivedOk(c: Channel, history: seq<Record>)
    requires ChannelOk(c, history) && c.received < |c.sent|
    ensures ChannelOk(c.(received := c.received + 1), history)
  {
    hide TailFits;
  }

  // ---------------------------------------------------------------- counters

  lemma CloseOne(channels: map<nat, Channel>, id: nat)
    requires id in channels && !channels[id].closed
    ensures var after := channels[id := channels[id].(closed := true)];
            OpenIds(after) == OpenIds(channels) - {id} && |OpenIds(after)| == |OpenIds(channels)| - 1
  {
    var after := channels[id := channels[id].(closed := true)];
    assert OpenIds(after) == OpenIds(channels) - {id};
  }

  /** The viewers of the sources named in `keys`, counted one source after another. */
  ghost function CountViewers(profiles: map<string, Source>, keys: set<string>): nat
    requires keys <= profiles.Keys
    decreases |keys|
  {
    if keys == {} then 0
    else var k :| k in keys; |profiles[k].viewers| + CountViewers(profiles, keys - {k})
  }

  ghost function BytesUsed(profiles: map<string, Source>, keys: set<string>): int
    requires keys <= profiles.Keys
    decreases |keys|
  {
    if keys == {} then 0
    else var k :| k in keys; profiles[k].used + BytesUsed(profiles, keys - {k})
  }

  ghost function ViewersOf(profiles: map<string, Source>, keys: set<string>): set<nat>
    requires keys <= profiles.Keys
  {
    set k, id | k in keys && id in profiles[k].viewers :: id
  }

  lemma {:induction false} CountIsUnion(profiles: map<string, Source>, channels: map<nat, Channel>, keys: set<string>)
    requires ViewersOk(profiles, channels) && Distinct(profiles) && keys <= profiles.Keys
    ensures CountViewers(profiles, keys) == |ViewersOf(profiles, keys)|
    decreases |keys|
  {
    if keys == {} {
      assert ViewersOf(profiles, keys) == {};
    } else {
      var k :| k in keys && CountViewers(profiles, keys) == |profiles[k].viewers| + CountViewers(profiles, keys - {k});
      CountIsUnion(profiles, channels, keys - {k});
      var rest := ViewersOf(profiles, keys - {k});
      forall id | id in rest
        ensures id !in profiles[k].viewers
      {
        var l :| l in keys - {k} && id in profiles[l].viewers;
        assert Connected(channels, id, profiles[l]);
        assert id in profiles[k].viewers ==> Connected(channels, id, profiles[k]);
      }
      assert ViewersOf(profiles, keys) == profiles[k].viewers + rest && profiles[k].viewers * rest == {};
    }
  }

  /** The hub's counter is the sum over its sources. */
  lemma CounterIsSum(profiles: map<string, Source>, channels: map<nat, Channel>, histories: seq<seq<Record>>)
    requires HubOk(profiles, channels, histories)
    ensures CountViewers(profiles, profiles.Keys) == |OpenIds(channels)|
  {
    hide SourceOk, ChannelOk, Numbered, CountViewers;
    CountIsUnion(profiles, channels, profiles.Keys);
    ViewersAreOpen(profiles, channels);
  }

  lemma ViewersAreOpen(profiles: map<string, Source>, channels: map<nat, Channel>)
    requires ViewersOk(profiles, channels) && Owned(profiles, channels)
    ensures ViewersOf(profiles, profiles.Keys) == OpenIds(channels)
  {
    var all := ViewersOf(profiles, profiles.Keys);
    forall id | id in all
      ensures id in OpenIds(channels)
    {
      var k :| k in profiles && id in profiles[k].viewers;
      assert Connected(channels, id, profiles[k]);
    }
    forall id | id in OpenIds(channels)
      ensures id in all
    {
      var k :| Views(profiles, k, id);
    }
  }

  /** No accepted record is longer than a line. */
  ghost predicate Short(histories: seq<seq<Record>>) {
    forall i, j :: 0 <= i < |histories| && 0 <= j < |histories[i]| ==> Size(histories[i][j]) <= MAX_LINE + 1
  }

  lemma {:induction false} HostBudget(profiles: map<string, Source>, histories: seq<seq<Record>>, keys: set<string>)
    requires SourcesOk(profiles, histories) && keys <= profiles.Keys && Short(histories)
    ensures 0 <= BytesUsed(profiles, keys) <= |keys| * PROFILE_BYTES
    decreases |keys|
  {
    if keys != {} {
      var k :| k in keys && BytesUsed(profiles, keys) == profiles[k].used + BytesUsed(profiles, keys - {k});
      HostBudget(profiles, histories, keys - {k});
      var p, history := profiles[k], histories[profiles[k].instance];
      if |p.records| == 1 {
        assert p.records[0] == history[|history| - 1];
        TotalOne(p.records[0]);
        assert p.records == [p.records[0]];
      }
    }
  }

  lemma OpenOne(channels: map<nat, Channel>, id: nat, c: Channel)
    requires id !in channels && !c.closed
    ensures |OpenIds(channels[id := c])| == |OpenIds(channels)| + 1
  {
    assert OpenIds(channels[id := c]) == OpenIds(channels) + {id};
  }

  lemma BroadcastStep(channels: map<nat, Channel>, done: set<nat>, v: nat, r: Record)
    requires v in channels && v !in done
    ensures v in Broadcast(channels, done, r) && Broadcast(channels, done, r)[v] == channels[v]
    ensures Broadcast(channels, done, r)[v := Offered(channels[v], r)] == Broadcast(channels, done + {v}, r)
    ensures Staying(channels, done + {v}) == if HasRoom(channels[v]) then Staying(channels, done) + {v}
        else Staying(channels, done)
  {
  }

  lemma EndedStep(channels: map<nat, Channel>, done: set<nat>, v: nat, marker: Record)
    requires v in channels && v !in done
    ensures v in EndedAll(channels, done, marker) && EndedAll(channels, done, marker)[v] == channels[v]
    ensures EndedAll(channels, done, marker)[v := Ended(channels[v], marker)] == EndedAll(channels, done + {v}, marker)
  {
  }

  lemma SameOpen(channels: map<nat, Channel>, id: nat, c: Channel)
    requires id in channels && c.closed == channels[id].closed
    ensures OpenIds(channels[id := c]) == OpenIds(channels)
  {
  }

  lemma SameIds(channels: map<nat, Channel>, ids: set<nat>, r: Record)
    ensures Broadcast(channels, ids, r).Keys == channels.Keys && EndedAll(channels, ids, r).Keys == channels.Keys
  {
  }

  lemma SameSize(profiles: map<string, Source>, key: string, p: Source)
    requires key in profiles
    ensures |profiles[key := p]| == |profiles|
  {
    assert profiles[key := p].Keys == profiles.Keys;
  }

  lemma StayingAmong(channels: map<nat, Channel>, ids: set<nat>)
    ensures Staying(channels, ids) <= ids
  {
  }

  lemma NothingDone(channels: map<nat, Channel>, r: Record)
    ensures Broadcast(channels, {}, r) == channels && EndedAll(channels, {}, r) == channels
        && Staying(channels, {}) == {}
  {
  }

  lemma ViewerConnected(profiles: map<string, Source>, channels: map<nat, Channel>, histories: seq<seq<Record>>,
                        key: string, id: nat)
    requires HubOk(profiles, channels, histories) && key in profiles && id in profiles[key].viewers
    ensures Connected(channels, id, profiles[key])
  {
  }

  lemma ViewersConnected(profiles: map<string, Source>, channels: map<nat, Channel>, histories: seq<seq<Record>>,
                         key: string)
    requires HubOk(profiles, channels, histories) && key in profiles
    ensures forall id :: id in profiles[key].viewers ==> id in channels && !channels[id].closed
  {
    hide HubOk;
    forall id | id in profiles[key].viewers
      ensures id in channels && !channels[id].closed
    {
      ViewerConnected(profiles, channels, histories, key, id);
    }
  }

  lemma SourceOf(profiles: map<string, Source>, channels: map<nat, Channel>, histories: seq<seq<Record>>, key: string)
    requires HubOk(profiles, channels, histories) && key in profiles
    ensures var p := profiles[key];
            && p.instance < |histories| && p.used == Total(p.records) && (p.viewers != {} <==> !p.closing)
                && (p.closing ==> p == GivenUp(p))
  {
    NotClosingWithViewers(profiles[key], histories[profiles[key].instance]);
  }

  lemma NotClosingWithViewers(p: Source, history: seq<Record>)
    requires SourceOk(p, history)
    ensures p.viewers != {} <==> !p.closing
    ensures p.closing ==> p == GivenUp(p)
  {
  }

  // ---------------------------------------------------------------- the hub as a value

  function ClosingMarker(reason: string): Record {
    Record(0, "[log stream closed: " + reason + "]", true)
  }

  /** The state of the hub; its viewer counter is the number of open channels. */
  datatype Hub = Hub(profiles: map<string, Source>, next: nat, channels: map<nat, Channel>, histories: seq<seq<Record>>)

  /** What can happen to a hub.  The text of a record was cut to a line by the redactor; only the collector of a
      source that has given up removes it. */
  datatype Event =
    | Subscribing(key: string)
    | Appending(key: string, text: string, gap: bool)
    | Leaving(key: string, id: nat)
    | Closing(key: string, reason: string)
    | Removing(key: string, instance: nat)
    | Receiving(id: nat)

  const EMPTY_HUB := Hub(map[], 0, map[], [])

  predicate Admits(h: Hub, key: string) {
    && |OpenIds(h.channels)| < MAX_VIEWERS
    && (if key in h.profiles then !h.profiles[key].closing else |h.profiles| < MAX_PROFILES)
  }

  function SubscribedHub(h: Hub, key: string): Hub {
    if !Admits(h, key) then h
    else
      var id := h.next + 1;
      if key in h.profiles then
        var p := h.profiles[key];
        Hub(h.profiles[key := p.(viewers := p.viewers + {id})], id,
            h.channels[id := Channel(Tail(p.records), [], 0, false, false, p.instance, p.seq_)], h.histories)
      else
        Hub(h.profiles[key := Source([], 0, 0, {id}, false, |h.histories|)], id,
            h.channels[id := Channel([], [], 0, false, false, |h.histories|, 0)], h.histories + [[]])
  }

  function AppendedTo(h: Hub, key: string, text: string, gap: bool): Hub {
    if key !in h.profiles || h.profiles[key].instance >= |h.histories| then h
    else
      var p := h.profiles[key];
      var r := Record(p.seq_ + 1, text, gap);
      h.(profiles := h.profiles[key := AfterAppend(p, Kept(p.records, Size(r), PROFILE_BYTES, MAX_RECORDS), r,
          Staying(h.channels, p.viewers))],
         channels := Broadcast(h.channels, p.viewers, r),
         histories := h.histories[p.instance := h.histories[p.instance] + [r]])
  }

  function After(h: Hub, e: Event): Hub {
    match e
    case Subscribing(key) => SubscribedHub(h, key)
    case Appending(key, text, gap) => AppendedTo(h, key, text, gap)
    case Leaving(key, id) =>
      if key in h.profiles && id in h.profiles[key].viewers && id in h.channels then
        h.(profiles := h.profiles[key := WithoutViewer(h.profiles[key], id)],
            channels := h.channels[id := h.channels[id].(closed := true)])
      else h
    case Closing(key, reason) =>
      if key in h.profiles && !h.profiles[key].closing then
        h.(profiles := h.profiles[key := GivenUp(h.profiles[key])],
            channels := EndedAll(h.channels, h.profiles[key].viewers, ClosingMarker(reason)))
      else h
    case Removing(key, instance) =>
      if key in h.profiles && h.profiles[key].instance == instance && h.profiles[key].closing
          then h.(profiles := h.profiles - {key}) else h
    case Receiving(id) =>
      if id in h.channels && h.channels[id].received < |h.channels[id].sent| then
        h.(channels := h.channels[id := h.channels[id].(received := h.channels[id].received + 1)])
      else h
  }

  ghost predicate HubValid(h: Hub) {
    && HubOk(h.profiles, h.channels, h.histories) && |OpenIds(h.channels)| <= MAX_VIEWERS
        && |h.profiles| <= MAX_PROFILES
    && (forall id :: id in h.channels ==> id <= h.next) && Short(h.histories)
  }

  /** At no time does the hub retain more than the host budget. */
  lemma HubWithinBudget(h: Hub)
    requires HubValid(h)
    ensures 0 <= BytesUsed(h.profiles, h.profiles.Keys) <= HOST_BYTES
  {
    hide HubOk;
    assert SourcesOk(h.profiles, h.histories) by { HubSources(h.profiles, h.channels, h.histories); }
    HostBudget(h.profiles, h.histories, h.profiles.Keys);
    assert |h.profiles.Keys| == |h.profiles|;
  }

  lemma HubSources(profiles: map<string, Source>, channels: map<nat, Channel>, histories: seq<seq<Record>>)
    requires HubOk(profiles, channels, histories)
    ensures SourcesOk(profiles, histories)
  {
  }

  lemma ShortAppended(histories: seq<seq<Record>>, i: nat, r: Record)
    requires Short(histories) && i < |histories| && Size(r) <= MAX_LINE + 1
    ensures Short(histories[i := histories[i] + [r]])
  {
  }

  lemma ShortBegun(histories: seq<seq<Record>>)
    requires Short(histories)
    ensures Short(histories + [[]])
  {
  }

  // ---------------------------------------------------------------- a viewer joins

  lemma JoinKeepsValid(h: Hub, key: string)
    requires HubValid(h) && Admits(h, key) && key in h.profiles
    ensures HubValid(SubscribedHub(h, key))
  {
    hide HubOk, OpenIds, Tail, Short;
    var id, p := h.next + 1, h.profiles[key];
    TailIsTail(p.records);
    JoinedHub(h.profiles, h.channels, h.histories, key, id, Tail(p.records));
    OpenOne(h.channels, id, Channel(Tail(p.records), [], 0, false, false, p.instance, p.seq_));
    SameSize(h.profiles, key, p.(viewers := p.viewers + {id}));
  }

  lemma BeginKeepsValid(h: Hub, key: string)
    requires HubValid(h) && Admits(h, key) && key !in h.profiles
    ensures HubValid(SubscribedHub(h, key))
  {
    hide HubOk, OpenIds, Tail, Short;
    var id := h.next + 1;
    FreshHub(h.profiles, h.channels, h.histories, key, id);
    ShortBegun(h.histories);
    OpenOne(h.channels, id, Channel([], [], 0, false, false, |h.histories|, 0));
    OneMoreProfile(h.profiles, key, Source([], 0, 0, {id}, false, |h.histories|));
  }

  lemma OneMoreProfile(profiles: map<string, Source>, key: string, p: Source)
    requires key !in profiles
    ensures |profiles[key := p]| == |profiles| + 1
  {
    assert profiles[key := p].Keys == profiles.Keys + {key};
    assert |profiles.Keys| == |profiles|;
  }

  /** A viewer more is connected, under the next number. */
  lemma SubscribedCounts(h: Hub, key: string)
    requires HubValid(h) && Admits(h, key)
    ensures var id, after := h.next + 1, SubscribedHub(h, key);
            && id !in h.channels && |OpenIds(after.channels)| == |OpenIds(h.channels)| + 1
            && |after.histories| == |h.histories| + (if key in h.profiles then 0 else 1)
  {
    hide HubOk, OpenIds, Tail, Short;
    var id := h.next + 1;
    if key in h.profiles {
      var p := h.profiles[key];
      OpenOne(h.channels, id, Channel(Tail(p.records), [], 0, false, false, p.instance, p.seq_));
    } else {
      OpenOne(h.channels, id, Channel([], [], 0, false, false, |h.histories|, 0));
    }
  }

  // ---------------------------------------------------------------- the hub itself

  class LogHub {
    var profiles: map<string, Source>
    var viewers: int
    var next: nat
    var channels: map<nat, Channel>
    var sources: nat
    ghost var histories: seq<seq<Record>>

    ghost function Now(): Hub
      reads this
    {
      Hub(profiles, next, channels, histories)
    }

    ghost predicate Valid()
      reads this
    {
      && HubValid(Now()) && viewers == |OpenIds(channels)| && sources == |histories|
    }

    constructor ()
      ensures Valid() && Now() == EMPTY_HUB
    {
      profiles, viewers, next, channels, sources, histories := map[], 0, 0, map[], 0, [];
    }

    method Send(id: nat, r: Record)
      requires id in channels && !channels[id].closed && HasRoom(channels[id])
      modifies this`channels
      ensures channels == old(channels)[id := old(channels)[id].(sent := old(channels)[id].sent + [r])]
    {
      channels := channels[id := channels[id].(sent := channels[id].sent + [r])];
    }

    method Close(id: nat)
      requires id in channels && !channels[id].closed && viewers == |OpenIds(channels)|
      modifies this`channels, this`viewers
      ensures channels == old(channels)[id := old(channels)[id].(closed := true)] && viewers == old(viewers) - 1
          && viewers == |OpenIds(channels)|
    {
      CloseOne(channels, id);
      channels := channels[id := channels[id].(closed := true)];
      viewers := viewers - 1;
    }

    /** Offer a record to the given viewers; those without room are disconnected. */
    method Offer(ids: set<nat>, r: Record) returns (staying: set<nat>)
      requires viewers == |OpenIds(channels)| && forall id :: id in ids ==> id in channels && !channels[id].closed
      modifies this`channels, this`viewers
      ensures channels == Broadcast(old(channels), ids, r) && staying == Staying(old(channels), ids)
      ensures viewers == |OpenIds(channels)| && viewers <= old(viewers)
    {
      hide Broadcast, Staying, OpenIds;
      ghost var before := channels;
      var todo := ids;
      staying := {};
      NothingDone(channels, r);
      assert ids - todo == {};
      while todo != {}
        invariant todo <= ids && channels == Broadcast(before, ids - todo, r) && staying == Staying(before, ids - todo)
        invariant viewers == |OpenIds(channels)| && viewers <= old(viewers)
        decreases |todo|
      {
        var v :| v in todo;
        BroadcastStep(before, ids - todo, v, r);
        assert ids - (todo - {v}) == (ids - todo) + {v};
        if HasRoom(channels[v]) {
          SameOpen(channels, v, channels[v].(sent := channels[v].sent + [r]));
          Send(v, r);
          staying := staying + {v};
        } else {
          Close(v);
        }
        todo := todo - {v};
      }
      assert ids - todo == ids;
    }

    /** End the given viewers, with the marker where there is room. */
    method End(ids: set<nat>, marker: Record)
      requires viewers == |OpenIds(channels)| && forall id :: id in ids ==> id in channels && !channels[id].closed
      modifies this`channels, this`viewers
      ensures channels == EndedAll(old(channels), ids, marker)
      ensures viewers == |OpenIds(channels)| && viewers <= old(viewers)
    {
      hide EndedAll, OpenIds;
      ghost var before := channels;
      var todo := ids;
      NothingDone(channels, marker);
      assert ids - todo == {};
      while todo != {}
        invariant todo <= ids && channels == EndedAll(before, ids - todo, marker)
        invariant viewers == |OpenIds(channels)| && viewers <= old(viewers)
        decreases |todo|
      {
        var v :| v in todo;
        EndedStep(before, ids - todo, v, marker);
        assert ids - (todo - {v}) == (ids - todo) + {v};
        ghost var c := channels[v];
        if HasRoom(channels[v]) {
          SameOpen(channels, v, c.(sent := c.sent + [marker]));
          Send(v, marker);
          Close(v);
          SameOpen(channels, v, channels[v].(marked := true));
          channels := channels[v := channels[v].(marked := true)];
          assert channels[v] == Ended(c, marker);
        } else {
          Close(v);
        }
        todo := todo - {v};
      }
      assert ids - todo == ids;
    }

    /** A viewer joins: it is given the tail of what is retained, or the reason why not. */
    method Subscribe(key: string) returns (s: Subscription)
      requires Valid()
      modifies this
      ensures Valid() && Now() == SubscribedHub(old(Now()), key)
      ensures s.ViewerLimit? <==> old(viewers) >= MAX_VIEWERS
      ensures s.CleanupPending? <==> old(viewers) < MAX_VIEWERS && key in old(profiles) && old(profiles)[key].closing
      ensures s.ProfileLimit? <==>
              old(viewers) < MAX_VIEWERS && key !in old(profiles) && |old(profiles)| >= MAX_PROFILES
      ensures !s.Subscribed? ==> unchanged(this)
      ensures s.Subscribed? ==> s.id == old(next) + 1 && s.id !in old(channels) && viewers == old(viewers) + 1
      ensures s.Subscribed? && key in old(profiles) ==>
                && var p := old(profiles)[key];
                   && IsTail(p.records, s.tail) && histories == old(histories)
                       && profiles == old(profiles)[key := p.(viewers := p.viewers + {s.id})]
                   && channels == old(channels)[s.id := Channel(s.tail, [], 0, false, false, p.instance, p.seq_)]
      ensures s.Subscribed? && key !in old(profiles) ==>
                && s.tail == [] && histories == old(histories) + [[]]
                    && profiles == old(profiles)[key := Source([], 0, 0, {s.id}, false, |old(histories)|)]
                && channels == old(channels)[s.id := Channel([], [], 0, false, false, |old(histories)|, 0)]
    {
      hide HubOk, IsTail, OpenIds;
      if viewers >= MAX_VIEWERS {
        return ViewerLimit;
      }
      if key in profiles && profiles[key].closing {
        return CleanupPending;
      }
      if key !in profiles && |profiles| >= MAX_PROFILES {
        return ProfileLimit;
      }
      if key in profiles {
        s := Join(key);
      } else {
        s := Begin(key);
      }
    }

    /** The first viewer of a profile begins a new source. */
    method Begin(key: string) returns (s: Subscription)
      requires Valid() && viewers < MAX_VIEWERS && key !in profiles && |profiles| < MAX_PROFILES
      modifies this
      ensures Valid() && Now() == SubscribedHub(old(Now()), key) && s == Subscribed(old(next) + 1, [])
          && viewers == old(viewers) + 1 && s.id !in old(channels)
      ensures channels == old(channels)[s.id := Channel([], [], 0, false, false, |old(histories)|, 0)]
          && histories == old(histories) + [[]]
      ensures profiles == old(profiles)[key := Source([], 0, 0, {s.id}, false, |old(histories)|)]
    {
      hide HubValid, OpenIds, Tail;
      BeginKeepsValid(Now(), key);
      SubscribedCounts(Now(), key);
      var id := next + 1;
      profiles := profiles[key := Source([], 0, 0, {id}, false, sources)];
      channels := channels[id := Channel([], [], 0, false, false, sources, 0)];
      sources, histories := sources + 1, histories + [[]];
      next, viewers := id, viewers + 1;
      s := Subscribed(id, []);
    }

    /** A further viewer joins a source with the tail of what is retained. */
    method Join(key: string) returns (s: Subscription)
      requires Valid() && viewers < MAX_VIEWERS && key in profiles && !profiles[key].closing
      modifies this
      ensures Valid() && Now() == SubscribedHub(old(Now()), key) && s.Subscribed? && s.id == old(next) + 1
          && viewers == old(viewers) + 1 && s.id !in old(channels) && histories == old(histories)
      ensures var p := old(profiles)[key];
              && IsTail(p.records, s.tail) && profiles == old(profiles)[key := p.(viewers := p.viewers + {s.id})]
              && channels == old(channels)[s.id := Channel(s.tail, [], 0, false, false, p.instance, p.seq_)]
    {
      hide HubValid, OpenIds, IsTail, Tail;
      JoinKeepsValid(Now(), key);
      SubscribedCounts(Now(), key);
      var id, p := next + 1, profiles[key];
      var tail := TailOf(p.records);
      profiles := profiles[key := p.(viewers := p.viewers + {id})];
      channels := channels[id := Channel(tail, [], 0, false, false, p.instance, p.seq_)];
      next, viewers := id, viewers + 1;
      s := Subscribed(id, tail);
    }

    /** A record arrives from the source: it is numbered, room is made for it, and every viewer is offered it; a
        viewer without room is disconnected, and a source without viewers gives everything up. */
    method Append(key: string, text: string, gap: bool)
      requires Valid() && |text| <= MAX_LINE
      modifies this
      ensures Valid() && Now() == AppendedTo(old(Now()), key, text, gap)
    {
      hide HubOk, LongestFit, Broadcast, Staying, OpenIds, Kept, Short;
      if key !in profiles {
        return;
      }
      var p := profiles[key];
      var r := Record(p.seq_ + 1, text, gap);
      SourceOf(profiles, channels, histories, key);
      var kept, left := Trim(p.records, p.used, Size(r), PROFILE_BYTES, MAX_RECORDS);
      AppendedHub(profiles, channels, histories, key, kept, r);
      ShortAppended(histories, p.instance, r);
      ViewersConnected(profiles, channels, histories, key);
      SameIds(channels, p.viewers, r);
      StayingAmong(channels, p.viewers);
      var staying := Offer(p.viewers, r);
      histories := histories[p.instance := histories[p.instance] + [r]];
      p := p.(records := kept + [r], used := left + Size(r), seq_ := p.seq_ + 1, viewers := staying);
      if staying == {} {
        p := p.(closing := true, records := [], used := 0);
      }
      profiles := profiles[key := p];
      assert p == AfterAppend(old(profiles)[key], kept, r, Staying(old(channels), old(profiles)[key].viewers));
    }

    /** A viewer leaves; doing so again changes nothing, and the last one ends the source. */
    method Leave(key: string, id: nat)
      requires Valid()
      modifies this
      ensures Valid() && Now() == After(old(Now()), Leaving(key, id))
      ensures key in old(profiles) && id in old(profiles)[key].viewers ==>
                && profiles == old(profiles)[key := WithoutViewer(old(profiles)[key], id)]
                && id in old(channels) && channels == old(channels)[id := old(channels)[id].(closed := true)]
      ensures !(key in old(profiles) && id in old(profiles)[key].viewers) ==>
              profiles == old(profiles) && channels == old(channels) && viewers == old(viewers)
    {
      hide HubOk;
      if key in profiles {
        var p := profiles[key];
        SourceOf(profiles, channels, histories, key);
        if id in p.viewers {
          LeftHub(profiles, channels, histories, key, id);
          ViewerConnected(profiles, channels, histories, key, id);
          Close(id);
          p := p.(viewers := p.viewers - {id});
        }
        if p.viewers == {} {
          p := p.(closing := true, records := [], used := 0);
        }
        profiles := profiles[key := p];
        assert old(id !in profiles[key].viewers) ==> profiles == old(profiles);
      }
    }

    /** The source ends: every viewer with room gets a closing marker, and every channel is closed once. */
    method CloseProfile(key: string, reason: string)
      requires Valid()
      modifies this
      ensures Valid() && Now() == After(old(Now()), Closing(key, reason))
      ensures key !in old(profiles) || old(profiles)[key].closing ==> unchanged(this)
      ensures key in old(profiles) && !old(profiles)[key].closing ==>
                && profiles == old(profiles)[key := GivenUp(old(profiles)[key])]
                && channels == EndedAll(old(channels), old(profiles)[key].viewers, ClosingMarker(reason))
    {
      hide HubOk, EndedAll, OpenIds;
      if key !in profiles || profiles[key].closing {
        return;
      }
      var p, marker := profiles[key], ClosingMarker(reason);
      EndedHub(profiles, channels, histories, key, marker);
      ViewersConnected(profiles, channels, histories, key);
      SameIds(channels, p.viewers, marker);
      End(p.viewers, marker);
      assert profiles == old(profiles);
      profiles := profiles[key := GivenUp(p)];
    }

    /** The collector of a source that has given up takes it out; a newer source of the same profile is left alone. */
    method Remove(key: string, instance: nat)
      requires Valid() && (key in profiles && profiles[key].instance == instance ==> profiles[key].closing)
      modifies this
      ensures Valid() && Now() == After(old(Now()), Removing(key, instance))
      ensures profiles == if key in old(profiles) && old(profiles)[key].instance == instance then old(profiles) - {key}
          else old(profiles)
    {
      hide HubOk;
      if key in profiles && profiles[key].instance == instance {
        RemovedHub(profiles, channels, histories, key);
        assert (profiles - {key}).Keys == profiles.Keys - {key};
        profiles := profiles - {key};
      }
    }

    /** A viewer takes the next record from its channel, also after the channel was closed. */
    method Receive(id: nat) returns (r: Record)
      requires Valid() && id in channels && channels[id].received < |channels[id].sent|
      modifies this`channels
      ensures Valid() && Now() == After(old(Now()), Receiving(id))
          && r == old(channels)[id].sent[old(channels)[id].received]
      ensures channels == old(channels)[id := old(channels)[id].(received := old(channels)[id].received + 1)]
    {
      hide HubOk;
      ReceivedHub(profiles, channels, histories, id);
      ghost var before := channels;
      r := channels[id].sent[channels[id].received];
      channels := channels[id := channels[id].(received := channels[id].received + 1)];
      assert OpenIds(channels) == OpenIds(before);
    }
  }
}
