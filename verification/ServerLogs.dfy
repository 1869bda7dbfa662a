/**
  The controller's side of a log stream (`internal/server/spark_logs.go`):
  batches from an agent are deduplicated by sequence number, retained within a
  budget, and handed to each viewer in groups through a bounded queue.

  A viewer is a value in `viewers`, kept after it is disconnected; `connected`
  are the viewers the stream still serves.  `history` and its length `total`
  are auxiliary: every record the stream has accepted.
*/
module ServerLogs {
  import opened LogRetention

  const STREAM_BYTES := 262144
  const STREAM_RECORDS := 4096
  const GROUP_BYTES := 16384
  const QUEUE_GROUPS := 8

  /** The controller counts only the text. */
  function Bytes(records: seq<Record>): nat {
    if records == [] then 0 else |records[0].text| + Bytes(records[1..])
  }

  lemma {:induction false} BytesAppend(a: seq<Record>, b: seq<Record>)
    ensures Bytes(a + b) == Bytes(a) + Bytes(b)
    decreases |a|
  {
    if a == [] {
      assert a + b == b;
    } else {
      assert (a + b)[0] == a[0] && (a + b)[1..] == a[1..] + b;
      BytesAppend(a[1..], b);
    }
  }

  lemma BytesOne(r: Record)
    ensures Bytes([r]) == |r.text|
  {
    assert [r][1..] == [];
  }

  lemma BytesSuffix(records: seq<Record>, k: nat)
    requires k <= |records|
    ensures Bytes(records[k..]) <= Bytes(records)
  {
    BytesAppend(records[..k], records[k..]);
    assert records[..k] + records[k..] == records;
  }

  // ---------------------------------------------------------------- accepting a batch

  /** The record as it is accepted after `last`: a skipped number is shown as a gap. */
  function Marked(last: int, r: Record): Record {
    if last > 0 && r.sequence != last + 1 then r.(gap := true) else r
  }

  /** The records of a batch that are new after `last`, and the last number then. */
  function Fresh(last: int, batch: seq<Record>): (seq<Record>, int)
    decreases |batch|
  {
    if batch == [] then ([], last)
    else if batch[0].sequence <= last then Fresh(last, batch[1..])
    else
      var rest := Fresh(batch[0].sequence, batch[1..]);
      ([Marked(last, batch[0])] + rest.0, rest.1)
  }

  /** Numbers only go up, and every skip after the first record is marked as a gap. */
  ghost predicate Ordered(history: seq<Record>) {
    forall i :: 1 <= i < |history| ==>
      && history[i - 1].sequence < history[i].sequence
      && (history[i].sequence != history[i - 1].sequence + 1 && history[i - 1].sequence > 0 ==> history[i].gap)
  }

  predicate LastOf(history: seq<Record>, last: int) {
    if history == [] then last == 0 else history[|history| - 1].sequence == last
  }

  /** Accepting one more batch keeps the order; replaying a batch accepts nothing. */
  lemma {:induction false} FreshExtends(history: seq<Record>, last: int, batch: seq<Record>)
    requires Ordered(history) && LastOf(history, last)
    ensures var (added, end) := Fresh(last, batch);
            Ordered(history + added) && LastOf(history + added, end) && last <= end
    decreases |batch|
  {
    if batch == [] {
      assert history + [] == history;
    } else if batch[0].sequence <= last {
      FreshExtends(history, last, batch[1..]);
    } else {
      hide Ordered, LastOf;
      var r := Marked(last, batch[0]);
      OrderedGrows(history, last, batch[0]);
      FreshExtends(history + [r], batch[0].sequence, batch[1..]);
      assert history + [r] + Fresh(batch[0].sequence, batch[1..]).0 == history + ([r] + Fresh(batch[0].sequence,
          batch[1..]).0);
    }
  }

  lemma OrderedGrows(history: seq<Record>, last: int, r: Record)
    requires Ordered(history) && LastOf(history, last) && r.sequence > last
    ensures Ordered(history + [Marked(last, r)]) && LastOf(history + [Marked(last, r)], r.sequence)
  {
  }

  lemma {:induction false} FreshCovers(last: int, batch: seq<Record>)
    ensures last <= Fresh(last, batch).1
    ensures forall i :: 0 <= i < |batch| ==> batch[i].sequence <= Fresh(last, batch).1
    decreases |batch|
  {
    if batch != [] {
      FreshCovers(if batch[0].sequence <= last then last else batch[0].sequence, batch[1..]);
    }
  }

  lemma {:induction false} NothingFresh(last: int, batch: seq<Record>)
    requires forall i :: 0 <= i < |batch| ==> batch[i].sequence <= last
    ensures Fresh(last, batch) == ([], last)
    decreases |batch|
  {
    if batch != [] {
      NothingFresh(last, batch[1..]);
    }
  }

  /** A batch delivered a second time changes nothing. */
  lemma ReplayAcceptsNothing(last: int, batch: seq<Record>)
    ensures Fresh(Fresh(last, batch).1, batch) == ([], Fresh(last, batch).1)
  {
    FreshCovers(last, batch);
    NothingFresh(Fresh(last, batch).1, batch);
  }

  lemma FreshStep(last: int, batch: seq<Record>, i: nat)
    requires i < |batch|
    ensures var (done, now) := Fresh(last, batch[..i]);
            Fresh(last, batch[..i + 1]) == if batch[i].sequence <= now then (done, now)
                else (done + [Marked(now, batch[i])], batch[i].sequence)
  {
    FreshSplit(last, batch[..i], batch[i]);
    assert batch[..i] + [batch[i]] == batch[..i + 1];
  }

  lemma {:induction false} FreshSplit(last: int, batch: seq<Record>, r: Record)
    ensures var (done, now) := Fresh(last, batch);
            Fresh(last, batch + [r]) == if r.sequence <= now then (done, now) else (done + [Marked(now, r)], r.sequence)
    decreases |batch|
  {
    if batch == [] {
      assert [r][1..] == [] && batch + [r] == [r] && [Marked(last, r)] + [] == [] + [Marked(last, r)];
    } else {
      assert (batch + [r])[0] == batch[0] && (batch + [r])[1..] == batch[1..] + [r];
      if batch[0].sequence <= last {
        FreshSplit(last, batch[1..], r);
      } else {
        FreshSplit(batch[0].sequence, batch[1..], r);
        var (done, now) := Fresh(batch[0].sequence, batch[1..]);
        assert [Marked(last, batch[0])] + (done + [Marked(now, r)]) == ([Marked(last, batch[0])] + done) + [Marked(now,
            r)];
      }
    }
  }

  // ---------------------------------------------------------------- the tail of a new viewer

  predicate StreamTailFits(tail: seq<Record>) {
    |tail| <= TAIL_RECORDS && Bytes(tail) <= TAIL_BYTES
  }

  ghost predicate StreamTailFrom(records: seq<Record>, tail: seq<Record>, k: int) {
    && 0 <= k <= |records| && tail == records[k..] && StreamTailFits(tail) && forall i :: 0 <= i < k ==>
        !StreamTailFits(records[i..])
  }

  /** `tail` is the longest suffix within 200 records and 128 KiB of text. */
  ghost predicate IsStreamTail(records: seq<Record>, tail: seq<Record>) {
    exists k :: StreamTailFrom(records, tail, k)
  }

  function StreamTail(records: seq<Record>): seq<Record> {
    if StreamTailFits(records) then records else StreamTail(records[1..])
  }

  lemma {:induction false} StreamTailIsTail(records: seq<Record>)
    ensures IsStreamTail(records, StreamTail(records))
    decreases |records|
  {
    var tail := StreamTail(records);
    if StreamTailFits(records) {
      assert StreamTailFrom(records, tail, 0);
    } else {
      StreamTailIsTail(records[1..]);
      var k :| StreamTailFrom(records[1..], tail, k);
      assert tail == records[k + 1..];
      forall i | 0 <= i < k + 1
        ensures !StreamTailFits(records[i..])
      {
        if i == 0 {
          assert records[0..] == records;
        } else {
          assert records[i..] == records[1..][i - 1..];
        }
      }
      assert StreamTailFrom(records, tail, k + 1);
    }
  }

  /** There is only one such tail. */
  lemma StreamTailUnique(records: seq<Record>, a: seq<Record>, b: seq<Record>)
    requires IsStreamTail(records, a) && IsStreamTail(records, b)
    ensures a == b
  {
    var j :| StreamTailFrom(records, a, j);
    var k :| StreamTailFrom(records, b, k);
    assert j == k;
  }

  method LogTail(records: seq<Record>) returns (tail: seq<Record>)
    ensures IsStreamTail(records, tail) && tail == StreamTail(records)
  {
    var count, bytes := 0, 0;
    var start := |records|;
    assert records[start..] == [];
    while start > 0 && count < TAIL_RECORDS
      invariant 0 <= start <= |records| && count == |records| - start && count <= TAIL_RECORDS
      invariant bytes == Bytes(records[start..]) && bytes <= TAIL_BYTES
      decreases start
    {
      var size := |records[start - 1].text|;
      assert records[start - 1..] == [records[start - 1]] + records[start..];
      if bytes + size > TAIL_BYTES {
        break;
      }
      start, count, bytes := start - 1, count + 1, bytes + size;
    }
    tail := records[start..];
    forall i | 0 <= i < start
      ensures !StreamTailFits(records[i..])
    {
      if count < TAIL_RECORDS {
        assert records[i..][start - 1 - i..] == records[start - 1..];
        BytesSuffix(records[i..], start - 1 - i);
      }
    }
    assert StreamTailFrom(records, tail, start);
    StreamTailIsTail(records);
    StreamTailUnique(records, tail, StreamTail(records));
  }

  // ---------------------------------------------------------------- groups

  /** A group fits, or is a single record. */
  predicate GroupOk(group: seq<Record>) {
    group != [] && (Bytes(group) <= GROUP_BYTES || |group| == 1)
  }

  /** The longest group that starts with the first `n` records. */
  function GroupLength(records: seq<Record>, n: nat): (m: nat)
    requires 1 <= n <= |records|
    ensures n <= m <= |records| && (GroupOk(records[..n]) ==> GroupOk(records[..m]))
        && (m < |records| ==> !GroupOk(records[..m + 1]))
    decreases |records| - n
  {
    if n < |records| && GroupOk(records[..n + 1]) then GroupLength(records, n + 1) else n
  }

  /** How many of the records the next group takes: as many as fit, but at least one. */
  method GroupSize(records: seq<Record>) returns (n: nat)
    requires records != []
    ensures 1 <= n <= |records| && GroupOk(records[..n]) && n == GroupLength(records, 1)
    ensures n < |records| ==> !GroupOk(records[..n + 1])
  {
    n := 0;
    var bytes := 0;
    while n < |records|
      invariant n <= |records| && bytes == Bytes(records[..n])
      invariant n > 0 ==> GroupOk(records[..n]) && GroupLength(records, n) == GroupLength(records, 1)
      decreases |records| - n
    {
      var size := |records[n].text|;
      assert records[..n + 1] == records[..n] + [records[n]];
      BytesAppend(records[..n], [records[n]]);
      BytesOne(records[n]);
      if n > 0 && bytes + size > GROUP_BYTES {
        break;
      }
      bytes, n := bytes + size, n + 1;
    }
  }

  function Flat(groups: seq<seq<Record>>): seq<Record> {
    if groups == [] then [] else Flat(groups[..|groups| - 1]) + groups[|groups| - 1]
  }

  lemma FlatAppend(groups: seq<seq<Record>>, group: seq<Record>)
    ensures Flat(groups + [group]) == Flat(groups) + group
  {
    assert (groups + [group])[..|groups|] == groups;
  }

  // ---------------------------------------------------------------- retention

  predicate WithinBudget(records: seq<Record>) {
    Bytes(records) <= STREAM_BYTES && |records| <= STREAM_RECORDS
  }

  ghost predicate LongestWithinFrom(all: seq<Record>, kept: seq<Record>, k: int) {
    && 0 <= k <= |all| && kept == all[k..] && WithinBudget(kept) && forall i :: 0 <= i < k ==> !WithinBudget(all[i..])
  }

  /** `kept` is the longest suffix of `all` within the stream's budget. */
  ghost predicate LongestWithin(all: seq<Record>, kept: seq<Record>) {
    exists k :: LongestWithinFrom(all, kept, k)
  }

  function Retained(all: seq<Record>): seq<Record> {
    if WithinBudget(all) then all else Retained(all[1..])
  }

  lemma {:induction false} RetainedIsLongest(all: seq<Record>)
    ensures LongestWithin(all, Retained(all))
    decreases |all|
  {
    var kept := Retained(all);
    if WithinBudget(all) {
      assert LongestWithinFrom(all, kept, 0);
    } else {
      RetainedIsLongest(all[1..]);
      var k :| LongestWithinFrom(all[1..], kept, k);
      assert kept == all[k + 1..];
      forall i | 0 <= i < k + 1
        ensures !WithinBudget(all[i..])
      {
        if i == 0 {
          assert all[0..] == all;
        } else {
          assert all[i..] == all[1..][i - 1..];
        }
      }
      assert LongestWithinFrom(all, kept, k + 1);
    }
  }

  // ---------------------------------------------------------------- viewers

  datatype Viewer = Viewer(session: string, tail: seq<Record>, groups: seq<seq<Record>>, taken: nat, closed: bool,
      reason: string, start: nat)

  predicate HasRoom(v: Viewer) {
    |v.groups| - v.taken < QUEUE_GROUPS
  }

  function Disconnected(v: Viewer, reason: string): Viewer {
    v.(closed := true, reason := reason)
  }

  /** A group offered to a viewer: queued if there is room, otherwise the viewer is disconnected. */
  function Offered(v: Viewer, group: seq<Record>): Viewer {
    if HasRoom(v) then v.(groups := v.groups + [group]) else Disconnected(v, "slow_viewer_gap")
  }

  /** Tail and groups are one contiguous run of the history. */
  predicate ViewerOk(v: Viewer, history: seq<Record>) {
    && v.taken <= |v.groups| && |v.groups| - v.taken <= QUEUE_GROUPS && |v.tail| <= v.start && StreamTailFits(v.tail)
    && v.start + |Flat(v.groups)| <= |history|
    && v.tail + Flat(v.groups) == history[v.start - |v.tail|..v.start + |Flat(v.groups)|]
    && forall i :: 0 <= i < |v.groups| ==> GroupOk(v.groups[i])
  }

  predicate UpToDate(v: Viewer, history: seq<Record>) {
    !v.closed && v.start + |Flat(v.groups)| == |history|
  }

  lemma OfferedOk(v: Viewer, group: seq<Record>, history: seq<Record>)
    requires ViewerOk(v, history) && UpToDate(v, history) && GroupOk(group)
    ensures ViewerOk(Offered(v, group), history + group) && (HasRoom(v) ==>
        UpToDate(Offered(v, group), history + group))
  {
    FlatAppend(v.groups, group);
    var longer := history + group;
    assert history[v.start - |v.tail|..] == history[v.start - |v.tail|..|history|];
    assert longer[v.start - |v.tail|..|history|] == history[v.start - |v.tail|..|history|];
    var from := v.start - |v.tail|;
    assert v.tail + (Flat(v.groups) + group) == (v.tail + Flat(v.groups)) + group == longer[from..|longer|];
  }

  lemma OtherOk(v: Viewer, group: seq<Record>, history: seq<Record>)
    requires ViewerOk(v, history)
    ensures ViewerOk(v, history + group)
  {
    var from, to := v.start - |v.tail|, v.start + |Flat(v.groups)|;
    assert (history + group)[from..to] == history[from..to];
  }

  function Delivered(viewers: map<string, Viewer>, ids: set<string>, group: seq<Record>): map<string, Viewer> {
    map id | id in viewers :: if id in ids then Offered(viewers[id], group) else viewers[id]
  }

  function Staying(viewers: map<string, Viewer>, ids: set<string>): set<string> {
    set id | id in ids && id in viewers && HasRoom(viewers[id])
  }

  function AllDisconnected(viewers: map<string, Viewer>, ids: set<string>, reason: string): map<string, Viewer> {
    map id | id in viewers :: if id in ids then Disconnected(viewers[id], reason) else viewers[id]
  }

  ghost predicate ViewersOk(viewers: map<string, Viewer>, connected: set<string>, history: seq<Record>) {
    && (forall id :: id in viewers ==> ViewerOk(viewers[id], history))
    && (forall id :: id in connected ==> id in viewers && UpToDate(viewers[id], history))
  }

  lemma DeliveredOk(viewers: map<string, Viewer>, connected: set<string>, history: seq<Record>, group: seq<Record>)
    requires ViewersOk(viewers, connected, history) && GroupOk(group)
    ensures ViewersOk(Delivered(viewers, connected, group), Staying(viewers, connected), history + group)
  {
    hide ViewerOk, UpToDate, GroupOk, HasRoom, Offered;
    forall id | id in viewers
      ensures ViewerOk(Delivered(viewers, connected, group)[id], history + group)
      ensures id in connected && HasRoom(viewers[id]) ==> UpToDate(Delivered(viewers, connected, group)[id],
          history + group)
    {
      if id in connected {
        OfferedOk(viewers[id], group, history);
      } else {
        OtherOk(viewers[id], group, history);
      }
    }
  }

  lemma DisconnectedOk(viewers: map<string, Viewer>, connected: set<string>, history: seq<Record>, ids: set<string>,
                       reason: string)
    requires ViewersOk(viewers, connected, history)
    ensures ViewersOk(AllDisconnected(viewers, ids, reason), connected - ids, history)
  {
    forall id | id in viewers
      ensures ViewerOk(AllDisconnected(viewers, ids, reason)[id], history)
    {
      assert ViewerOk(viewers[id], history);
    }
  }

  lemma JoinedOk(records: seq<Record>, tail: seq<Record>, history: seq<Record>, session: string)
    requires IsStreamTail(records, tail) && |records| <= |history| && records == history[|history| - |records|..]
    ensures var v := Viewer(session, tail, [], 0, false, "", |history|); ViewerOk(v, history) && UpToDate(v, history)
  {
    var k :| StreamTailFrom(records, tail, k);
    assert tail + [] == tail && tail == history[|history| - |tail|..|history|];
  }

  lemma DeliverStep(viewers: map<string, Viewer>, done: set<string>, id: string, group: seq<Record>)
    requires id in viewers && id !in done
    ensures id in Delivered(viewers, done, group) && Delivered(viewers, done, group)[id] == viewers[id]
    ensures Delivered(viewers, done, group)[id := Offered(viewers[id], group)] == Delivered(viewers, done + {id}, group)
    ensures Staying(viewers, done + {id}) == if HasRoom(viewers[id]) then Staying(viewers, done) + {id}
        else Staying(viewers, done)
    ensures id !in Staying(viewers, done)
  {
  }

  lemma DisconnectStep(viewers: map<string, Viewer>, done: set<string>, id: string, reason: string)
    requires id in viewers && id !in done
    ensures id in AllDisconnected(viewers, done, reason) && AllDisconnected(viewers, done, reason)[id] == viewers[id]
    ensures AllDisconnected(viewers, done, reason)[id := Disconnected(viewers[id], reason)] == AllDisconnected(viewers,
        done + {id}, reason)
  {
  }

  lemma TakenOk(viewers: map<string, Viewer>, connected: set<string>, history: seq<Record>, id: string)
    requires ViewersOk(viewers, connected, history) && id in viewers && viewers[id].taken < |viewers[id].groups|
    ensures ViewersOk(viewers[id := viewers[id].(taken := viewers[id].taken + 1)], connected, history)
  {
    hide Flat, GroupOk, StreamTailFits;
    assert ViewerOk(viewers[id], history);
  }

  lemma DroppedOk(viewers: map<string, Viewer>, connected: set<string>, history: seq<Record>, id: string)
    requires ViewersOk(viewers, connected, history)
    ensures ViewersOk(viewers, connected - {id}, history)
  {
    hide ViewerOk, UpToDate;
  }

  lemma ConnectedOpen(viewers: map<string, Viewer>, connected: set<string>, history: seq<Record>)
    requires ViewersOk(viewers, connected, history)
    ensures forall id :: id in connected ==> id in viewers && !viewers[id].closed
  {
    hide ViewerOk;
  }

  lemma NothingDone(viewers: map<string, Viewer>, group: seq<Record>, reason: string)
    ensures Delivered(viewers, {}, group) == viewers && Staying(viewers, {}) == {}
        && AllDisconnected(viewers, {}, reason) == viewers
  {
  }

  /** The records go out group by group to the viewers still served. */
  function DeliveredAll(viewers: map<string, Viewer>, connected: set<string>, records: seq<Record>): (map<string,
      Viewer>, set<string>)
    decreases |records|
  {
    if records == [] then (viewers, connected)
    else
      var n := GroupLength(records, 1);
      DeliveredAll(Delivered(viewers, connected, records[..n]), Staying(viewers, connected), records[n..])
  }

  lemma OneIsAGroup(records: seq<Record>)
    requires records != []
    ensures GroupOk(records[..1])
  {
  }

  lemma {:induction false} DeliveredAllOk(viewers: map<string, Viewer>, connected: set<string>, history: seq<Record>,
                                          records: seq<Record>)
    requires ViewersOk(viewers, connected, history)
    ensures var (after, staying) := DeliveredAll(viewers, connected, records);
        ViewersOk(after, staying, history + records) && staying <= connected
    decreases |records|
  {
    hide ViewersOk, GroupOk, Delivered;
    if records == [] {
      assert history + records == history;
    } else {
      OneIsAGroup(records);
      var n := GroupLength(records, 1);
      DeliveredOk(viewers, connected, history, records[..n]);
      DeliveredAllOk(Delivered(viewers, connected, records[..n]), Staying(viewers, connected), history + records[..n],
          records[n..]);
      assert history + records[..n] + records[n..] == history + records;
    }
  }

  // ---------------------------------------------------------------- the stream as a value

  datatype Stream = Stream(
    records: seq<Record>,
    lastSequence: int,
    closed: string,
    viewers: map<string, Viewer>,
    connected: set<string>,
    owners: set<string>,
    history: seq<Record>)

  /** What can happen to a stream. */
  datatype Event =
    | Owning(session: string)
    | Joining(id: string, session: string)
    | Accepting(batch: seq<Record>, closes: bool)
    | Deleting(session: string)
    | Departing(id: string)
    | Ending(reason: string)
    | Taking(id: string)

  const EMPTY_STREAM := Stream([], 0, "", map[], {}, {}, [])

  function ClosedStream(st: Stream, reason: string): Stream {
    if st.closed != "" then st
    else st.(closed := reason, records := [], viewers := AllDisconnected(st.viewers, st.connected, reason),
        connected := {})
  }

  function ServedOf(st: Stream, session: string): set<string> {
    set id | id in st.connected && id in st.viewers && st.viewers[id].session == session
  }

  function WithoutOwner(st: Stream, session: string, reason: string): Stream {
    var left := st.(owners := st.owners - {session});
    if left.owners == {} then ClosedStream(left, reason) else left
  }

  function AcceptedBatch(st: Stream, batch: seq<Record>): Stream {
    var (added, last) := Fresh(st.lastSequence, batch);
    var (viewers, connected) := DeliveredAll(st.viewers, st.connected, added);
    st.(records := Retained(st.records + added), lastSequence := last, viewers := viewers, connected := connected,
        history := st.history + added)
  }

  function JoinedStream(st: Stream, id: string, session: string): Stream {
    if id in st.viewers then st
    else st.(viewers := st.viewers[id := Viewer(session, StreamTail(st.records), [], 0, false, "", |st.history|)],
        connected := st.connected + {id})
  }

  function DeletedBy(st: Stream, session: string): Stream {
    var mine := ServedOf(st, session);
    WithoutOwner(st.(viewers := AllDisconnected(st.viewers, mine, "closed_by_owner"), connected := st.connected - mine),
        session, "closed_by_owner")
  }

  function DepartedFrom(st: Stream, id: string): Stream {
    if id !in st.viewers then st
    else
      var left := st.(connected := st.connected - {id});
      var session := st.viewers[id].session;
      if ServedOf(left, session) == {} then WithoutOwner(left, session, "no_viewers")
      else if left.owners == {} then ClosedStream(left, "no_viewers")
      else left
  }

  function After(st: Stream, e: Event): Stream {
    match e
    case Owning(session) => st.(owners := st.owners + {session})
    case Joining(id, session) => JoinedStream(st, id, session)
    case Accepting(batch, closes) => if closes then ClosedStream(AcceptedBatch(st, batch), "source_closed")
        else AcceptedBatch(st, batch)
    case Deleting(session) => DeletedBy(st, session)
    case Departing(id) => DepartedFrom(st, id)
    case Ending(reason) => if reason != "" then ClosedStream(st, reason) else st
    case Taking(id) =>
      if id in st.viewers && st.viewers[id].taken < |st.viewers[id].groups| then
        st.(viewers := st.viewers[id := st.viewers[id].(taken := st.viewers[id].taken + 1)])
      else st
  }

  /** The retained records are the newest accepted ones within the budget, numbers rise, and every viewer has a
      contiguous run. */
  ghost predicate StreamValid(st: Stream) {
    && |st.records| <= |st.history| && st.records == st.history[|st.history| - |st.records|..]
        && WithinBudget(st.records)
    && Ordered(st.history) && LastOf(st.history, st.lastSequence) && ViewersOk(st.viewers, st.connected, st.history)
  }

  lemma ClosedValid(st: Stream, reason: string)
    requires StreamValid(st)
    ensures StreamValid(ClosedStream(st, reason))
  {
    hide ViewersOk, Ordered, LastOf, AllDisconnected;
    DisconnectedOk(st.viewers, st.connected, st.history, st.connected, reason);
    assert st.connected - st.connected == {};
    assert st.history[|st.history|..] == [];
  }

  lemma OwnerAsideValid(st: Stream, session: string, reason: string)
    requires StreamValid(st)
    ensures StreamValid(WithoutOwner(st, session, reason))
  {
    hide ViewersOk, Ordered, LastOf, WithinBudget, ClosedStream;
    ClosedValid(st.(owners := st.owners - {session}), reason);
  }

  lemma AcceptedValid(st: Stream, batch: seq<Record>)
    requires StreamValid(st)
    ensures StreamValid(AcceptedBatch(st, batch))
  {
    hide ViewersOk, Ordered, LastOf, WithinBudget, Fresh, DeliveredAll, Retained, LongestWithin;
    var added := Fresh(st.lastSequence, batch).0;
    FreshExtends(st.history, st.lastSequence, batch);
    DeliveredAllOk(st.viewers, st.connected, st.history, added);
    RetainedIsLongest(st.records + added);
    TrimmedSuffix(st.history, st.records, added, Retained(st.records + added));
  }

  lemma JoinedValid(st: Stream, id: string, session: string)
    requires StreamValid(st)
    ensures StreamValid(JoinedStream(st, id, session))
  {
    hide ViewerOk, UpToDate, IsStreamTail, Ordered, WithinBudget, LastOf, StreamTail;
    StreamTailIsTail(st.records);
    JoinedOk(st.records, StreamTail(st.records), st.history, session);
  }

  lemma DeletedValid(st: Stream, session: string)
    requires StreamValid(st)
    ensures StreamValid(DeletedBy(st, session))
  {
    hide ViewersOk, Ordered, LastOf, WithinBudget, WithoutOwner, AllDisconnected;
    var mine := ServedOf(st, session);
    DisconnectedOk(st.viewers, st.connected, st.history, mine, "closed_by_owner");
    OwnerAsideValid(st.(viewers := AllDisconnected(st.viewers, mine, "closed_by_owner"),
        connected := st.connected - mine), session, "closed_by_owner");
  }

  lemma DepartedValid(st: Stream, id: string)
    requires StreamValid(st)
    ensures StreamValid(DepartedFrom(st, id))
  {
    hide ViewerOk, UpToDate, Ordered, LastOf, WithinBudget, WithoutOwner, ClosedStream;
    if id in st.viewers {
      var left := st.(connected := st.connected - {id});
      ClosedValid(left, "no_viewers");
      OwnerAsideValid(left, st.viewers[id].session, "no_viewers");
    }
  }

  lemma EventKeepsValid(st: Stream, e: Event)
    requires StreamValid(st)
    ensures StreamValid(After(st, e))
  {
    hide StreamValid, AcceptedBatch, JoinedStream, DeletedBy, DepartedFrom, ClosedStream;
    match e
    case Joining(id, session) => JoinedValid(st, id, session);
    case Accepting(batch, closes) =>
      AcceptedValid(st, batch);
      ClosedValid(AcceptedBatch(st, batch), "source_closed");
    case Deleting(session) => DeletedValid(st, session);
    case Departing(id) => DepartedValid(st, id);
    case Ending(reason) => ClosedValid(st, reason);
    case _ => RestValid(st, e);
  }

  lemma RestValid(st: Stream, e: Event)
    requires StreamValid(st) && (e.Owning? || e.Taking?)
    ensures StreamValid(After(st, e))
  {
    hide ViewersOk, Ordered, LastOf, WithinBudget;
    if e.Taking? && e.id in st.viewers && st.viewers[e.id].taken < |st.viewers[e.id].groups| {
      TakenOk(st.viewers, st.connected, st.history, e.id);
    }
  }

  function Run(st: Stream, events: seq<Event>): Stream
    decreases |events|
  {
    if events == [] then st else After(Run(st, events[..|events| - 1]), events[|events| - 1])
  }

  lemma {:induction false} RunKeepsValid(st: Stream, events: seq<Event>)
    requires StreamValid(st)
    ensures StreamValid(Run(st, events))
    decreases |events|
  {
    hide StreamValid, After;
    if events != [] {
      RunKeepsValid(st, events[..|events| - 1]);
      EventKeepsValid(Run(st, events[..|events| - 1]), events[|events| - 1]);
    }
  }

  lemma EmptyIsValid()
    ensures StreamValid(EMPTY_STREAM)
  {
  }

  // ---------------------------------------------------------------- what a viewer is sent

  /** The records the events bring after number `last`, and the last number then. */
  function Brought(last: int, events: seq<Event>): (seq<Record>, int)
    decreases |events|
  {
    if events == [] then ([], last)
    else
      var (sofar, now) := Brought(last, events[..|events| - 1]);
      var e := events[|events| - 1];
      if e.Accepting? then (sofar + Fresh(now, e.batch).0, Fresh(now, e.batch).1) else (sofar, now)
  }

  lemma EventHistory(st: Stream, e: Event)
    ensures var (added, last) := if e.Accepting? then Fresh(st.lastSequence, e.batch) else ([], st.lastSequence);
            After(st, e).history == st.history + added && After(st, e).lastSequence == last
  {
    hide Fresh, DeliveredAll, Retained, StreamTail;
    assert st.history + [] == st.history;
  }

  lemma {:induction false} RunHistory(st: Stream, events: seq<Event>)
    ensures Run(st, events).history == st.history + Brought(st.lastSequence, events).0
        && Run(st, events).lastSequence == Brought(st.lastSequence, events).1
    decreases |events|
  {
    hide After, Fresh;
    if events == [] {
      assert st.history + [] == st.history;
    } else {
      var front := events[..|events| - 1];
      RunHistory(st, front);
      EventHistory(Run(st, front), events[|events| - 1]);
      var sofar := Brought(st.lastSequence, front);
      var e := events[|events| - 1];
      if e.Accepting? {
        assert st.history + sofar.0 + Fresh(sofar.1, e.batch).0 == st.history + (sofar.0 + Fresh(sofar.1, e.batch).0);
      } else {
        assert st.history + sofar.0 + [] == st.history + sofar.0;
      }
    }
  }

  /** A viewer is never forgotten, and keeps its tail and where it began. */
  predicate Begun(st: Stream, id: string, tail: seq<Record>, start: nat) {
    id in st.viewers && st.viewers[id].tail == tail && st.viewers[id].start == start
  }

  lemma {:induction false} DeliveredBegun(viewers: map<string, Viewer>, connected: set<string>, records: seq<Record>,
                                          id: string)
    requires id in viewers
    ensures var after := DeliveredAll(viewers, connected, records).0;
            id in after && after[id].tail == viewers[id].tail && after[id].start == viewers[id].start
                && (viewers[id].closed ==> after[id].closed)
    ensures id !in connected ==> DeliveredAll(viewers, connected, records).0[id] == viewers[id]
    decreases |records|
  {
    if records != [] {
      var n := GroupLength(records, 1);
      DeliveredBegun(Delivered(viewers, connected, records[..n]), Staying(viewers, connected), records[n..], id);
    }
  }

  lemma EventBegun(st: Stream, e: Event, id: string, tail: seq<Record>, start: nat)
    requires Begun(st, id, tail, start)
    ensures Begun(After(st, e), id, tail, start)
  {
    hide Fresh, DeliveredAll, Retained, StreamTail, ServedOf;
    if e.Accepting? {
      DeliveredBegun(st.viewers, st.connected, Fresh(st.lastSequence, e.batch).0, id);
    }
  }

  lemma {:induction false} RunBegun(st: Stream, events: seq<Event>, id: string, tail: seq<Record>, start: nat)
    requires Begun(st, id, tail, start)
    ensures Begun(Run(st, events), id, tail, start)
    decreases |events|
  {
    hide After, Begun;
    if events != [] {
      RunBegun(st, events[..|events| - 1], id, tail, start);
      EventBegun(Run(st, events[..|events| - 1]), events[|events| - 1], id, tail, start);
    }
  }

  /** After any run let a viewer join, and let anything happen afterwards.  The viewer started with the tail of what
      was retained; the groups it was sent are a prefix of the records the later batches brought; and as long as the
      stream serves it, all of them. */
  lemma ViewerIsSentWhatIsAccepted(before: seq<Event>, id: string, session: string, after: seq<Event>)
    requires id !in Run(EMPTY_STREAM, before).viewers
    ensures var st := Run(EMPTY_STREAM, before); var end := Run(After(st, Joining(id, session)), after);
            && id in end.viewers
            && var v, brought := end.viewers[id], Brought(st.lastSequence, after).0;
               && IsStreamTail(st.records, v.tail) && Flat(v.groups) <= brought
                   && (id in end.connected ==> !v.closed && Flat(v.groups) == brought)
               && v.taken <= |v.groups| <= v.taken + QUEUE_GROUPS && forall i :: 0 <= i < |v.groups| ==>
                   GroupOk(v.groups[i])
  {
    hide Run, StreamTail, Brought, GroupOk, IsStreamTail, Flat, Ordered, WithinBudget, LastOf;
    EmptyIsValid();
    RunKeepsValid(EMPTY_STREAM, before);
    var st := Run(EMPTY_STREAM, before);
    StreamTailIsTail(st.records);
    JoinedValid(st, id, session);
    var joined := After(st, Joining(id, session));
    RunKeepsValid(joined, after);
    RunHistory(joined, after);
    RunBegun(joined, after, id, StreamTail(st.records), |st.history|);
    var end := Run(joined, after);
    assert ViewerOk(end.viewers[id], end.history);
    SentPrefix(end.viewers[id], st.history, Brought(st.lastSequence, after).0);
  }

  lemma SentPrefix(v: Viewer, history: seq<Record>, brought: seq<Record>)
    requires ViewerOk(v, history + brought) && v.start == |history|
    ensures Flat(v.groups) <= brought && (v.start + |Flat(v.groups)| == |history + brought| ==>
        Flat(v.groups) == brought)
  {
    hide GroupOk, StreamTailFits, Flat;
    var all, sent := history + brought, Flat(v.groups);
    forall i | 0 <= i < |sent|
      ensures sent[i] == brought[i]
    {
      assert (v.tail + sent)[|v.tail| + i] == all[v.start - |v.tail|..v.start + |sent|][|v.tail| + i];
    }
  }

  lemma EventLeavesClosed(st: Stream, e: Event, id: string)
    requires StreamValid(st) && id in st.viewers && st.viewers[id].closed
    ensures id !in st.connected
    ensures var st' := After(st, e);
            id in st'.viewers && st'.viewers[id].closed && st'.viewers[id].groups == st.viewers[id].groups
                && st'.viewers[id].reason == st.viewers[id].reason
  {
    hide Fresh, DeliveredAll, Retained, StreamTail, Ordered, WithinBudget, LastOf, ViewerOk;
    assert id in st.connected ==> UpToDate(st.viewers[id], st.history);
    if e.Accepting? {
      DeliveredBegun(st.viewers, st.connected, Fresh(st.lastSequence, e.batch).0, id);
      AcceptedServes(st, e.batch);
    }
  }

  lemma AcceptedServes(st: Stream, batch: seq<Record>)
    requires StreamValid(st)
    ensures AcceptedBatch(st, batch).connected <= st.connected
  {
    hide Fresh, Retained, ViewersOk, Ordered, LastOf, WithinBudget, DeliveredAll;
    DeliveredAllOk(st.viewers, st.connected, st.history, Fresh(st.lastSequence, batch).0);
  }

  /** Over every run: a viewer that was disconnected is sent nothing more, not disconnected again and keeps its
      reason. */
  lemma {:induction false} ClosedForGood(st: Stream, events: seq<Event>, id: string)
    requires StreamValid(st) && id in st.viewers && st.viewers[id].closed
    ensures var end := Run(st, events);
            && id in end.viewers && end.viewers[id].closed && id !in end.connected
            && end.viewers[id].groups == st.viewers[id].groups && end.viewers[id].reason == st.viewers[id].reason
    decreases |events|
  {
    hide StreamValid, After;
    if events == [] {
      EventLeavesClosed(st, Taking(id), id);
    } else {
      var front := events[..|events| - 1];
      ClosedForGood(st, front, id);
      RunKeepsValid(st, front);
      EventLeavesClosed(Run(st, front), events[|events| - 1], id);
      EventKeepsValid(Run(st, front), events[|events| - 1]);
      EventLeavesClosed(Run(st, events), Taking(id), id);
    }
  }

  // ---------------------------------------------------------------- the stream

  class LogStream {
    var records: seq<Record>
    var bytes: int
    var lastSequence: int
    var closed: string
    var viewers: map<string, Viewer>
    var connected: set<string>
    var owners: set<string>
    var total: nat
    ghost var history: seq<Record>

    ghost function Now(): Stream
      reads this
    {
      Stream(records, lastSequence, closed, viewers, connected, owners, history)
    }

    ghost predicate Valid()
      reads this
    {
      StreamValid(Now()) && bytes == Bytes(records) && total == |history|
    }

    constructor ()
      ensures Valid() && Now() == EMPTY_STREAM
    {
      records, bytes, lastSequence, closed, viewers, connected, owners, total, history := [], 0, 0, "", map[], {}, {},
          0, [];
    }

    method Own(session: string)
      requires Valid()
      modifies this`owners
      ensures Valid() && Now() == After(old(Now()), Owning(session))
    {
      owners := owners + {session};
    }

    /** Disconnecting requires a viewer that is still served, so no viewer is closed twice. */
    method Disconnect(id: string, reason: string)
      requires id in viewers && id in connected && !viewers[id].closed
      modifies this`viewers, this`connected
      ensures viewers == old(viewers)[id := Disconnected(old(viewers)[id], reason)]
          && connected == old(connected) - {id}
    {
      viewers := viewers[id := Disconnected(viewers[id], reason)];
      connected := connected - {id};
    }

    /** A viewer joins with the tail of what is retained. */
    method Join(id: string, session: string) returns (tail: seq<Record>)
      requires Valid() && id !in viewers
      modifies this`viewers, this`connected
      ensures Valid() && Now() == After(old(Now()), Joining(id, session)) && IsStreamTail(records, tail)
    {
      hide ViewerOk, UpToDate, IsStreamTail, Ordered, WithinBudget, LastOf, StreamTail;
      JoinedValid(Now(), id, session);
      tail := LogTail(records);
      viewers := viewers[id := Viewer(session, tail, [], 0, false, "", total)];
      connected := connected + {id};
    }

    /** The new records of a batch are appended. */
    method Take(batch: seq<Record>) returns (accepted: seq<Record>)
      modifies this`records, this`bytes, this`lastSequence
      requires bytes == Bytes(records)
      ensures (accepted, lastSequence) == Fresh(old(lastSequence), batch)
      ensures records == old(records) + accepted && bytes == Bytes(records)
    {
      accepted := [];
      var i := 0;
      assert batch[..0] == [] && records + [] == records;
      while i < |batch|
        invariant 0 <= i <= |batch| && (accepted, lastSequence) == Fresh(old(lastSequence), batch[..i])
        invariant records == old(records) + accepted && bytes == Bytes(records)
      {
        FreshStep(old(lastSequence), batch, i);
        var r := batch[i];
        if r.sequence > lastSequence {
          if lastSequence > 0 && r.sequence != lastSequence + 1 {
            r := r.(gap := true);
          }
          assert r == Marked(lastSequence, batch[i]);
          BytesAppend(records, [r]);
          BytesOne(r);
          assert old(records) + (accepted + [r]) == old(records) + accepted + [r];
          lastSequence, records, bytes, accepted := r.sequence, records + [r], bytes + |r.text|, accepted + [r];
        }
        i := i + 1;
      }
      assert batch[..i] == batch;
    }

    /** The oldest records go until the budget holds; the buffer is never indexed when empty. */
    method TrimRecords()
      modifies this`records, this`bytes
      requires bytes == Bytes(records)
      ensures records == Retained(old(records)) && LongestWithin(old(records), records) && bytes == Bytes(records)
    {
      RetainedIsLongest(records);
      while bytes > STREAM_BYTES || |records| > STREAM_RECORDS
        invariant Retained(records) == Retained(old(records)) && bytes == Bytes(records)
        decreases |records|
      {
        bytes := bytes - |records[0].text|;
        records := records[1..];
      }
    }

    /** One group goes to every viewer that is served; slow ones are disconnected. */
    method Deliver(group: seq<Record>)
      requires ViewersOk(viewers, connected, history) && GroupOk(group) && total == |history|
      modifies this`viewers, this`connected, this`total, this`history
      ensures ViewersOk(viewers, connected, history) && history == old(history) + group && total == |history|
      ensures viewers == Delivered(old(viewers), old(connected), group)
          && connected == Staying(old(viewers), old(connected))
    {
      hide ViewersOk, GroupOk, Delivered, Staying;
      DeliveredOk(viewers, connected, history, group);
      ghost var ids, before := connected, viewers;
      ConnectedOpen(viewers, connected, history);
      var todo := connected;
      NothingDone(viewers, group, "");
      assert ids - todo == {};
      while todo != {}
        invariant todo <= ids && connected == todo + Staying(before, ids - todo)
            && viewers == Delivered(before, ids - todo, group)
        invariant history == old(history) && total == old(total)
        decreases |todo|
      {
        var id :| id in todo;
        DeliverStep(before, ids - todo, id, group);
        assert ids - (todo - {id}) == (ids - todo) + {id};
        if HasRoom(viewers[id]) {
          viewers := viewers[id := viewers[id].(groups := viewers[id].groups + [group])];
        } else {
          Disconnect(id, "slow_viewer_gap");
        }
        todo := todo - {id};
      }
      assert ids - todo == ids && connected == Staying(before, ids);
      total, history := total + |group|, history + group;
    }

    /** The accepted records are queued in groups, in order and completely; exactly the viewers without room are
        disconnected. */
    method DeliverAll(accepted: seq<Record>)
      requires ViewersOk(viewers, connected, history) && total == |history|
      modifies this`viewers, this`connected, this`total, this`history
      ensures ViewersOk(viewers, connected, history) && history == old(history) + accepted && total == |history|
      ensures (viewers, connected) == DeliveredAll(old(viewers), old(connected), accepted)
    {
      hide ViewersOk, GroupOk, Delivered, Staying;
      var rest := accepted;
      while rest != []
        invariant ViewersOk(viewers, connected, history) && history + rest == old(history) + accepted
            && total == |history|
        invariant DeliveredAll(viewers, connected, rest) == DeliveredAll(old(viewers), old(connected), accepted)
        decreases |rest|
      {
        var n := GroupSize(rest);
        assert history + rest == (history + rest[..n]) + rest[n..];
        Deliver(rest[..n]);
        rest := rest[n..];
      }
      assert history + rest == history;
    }

    /** The new records of a batch are numbered, retained and handed out. */
    method AcceptRecords(batch: seq<Record>)
      requires Valid()
      modifies this
      ensures Valid() && Now() == AcceptedBatch(old(Now()), batch)
      ensures var (added, last) := Fresh(old(lastSequence), batch); LongestWithin(old(records) + added, records)
    {
      hide ViewersOk, Ordered, LongestWithin, LastOf, WithinBudget, Fresh, DeliveredAll, Retained;
      AcceptedValid(Now(), batch);
      var accepted := Take(batch);
      TrimRecords();
      DeliverAll(accepted);
    }

    /** A batch arrives; the stream may end with it. */
    method Accept(batch: seq<Record>, closes: bool)
      requires Valid()
      modifies this
      ensures Valid() && Now() == After(old(Now()), Accepting(batch, closes))
    {
      hide StreamValid, AcceptedBatch, ClosedStream, LongestWithin, Fresh;
      AcceptRecords(batch);
      if closes {
        CloseStream("source_closed");
      }
    }

    /** The stream closes once: everything retained is given up and every viewer told the reason. */
    method CloseStream(reason: string)
      requires Valid() && reason != ""
      modifies this`closed, this`records, this`bytes, this`viewers, this`connected
      ensures Valid() && Now() == ClosedStream(old(Now()), reason) && owners == old(owners)
    {
      hide ViewersOk, Ordered, LastOf, AllDisconnected, WithinBudget;
      ClosedValid(Now(), reason);
      if closed != "" {
        return;
      }
      closed, records, bytes := reason, [], 0;
      DisconnectAll(connected, reason);
      assert old(connected) - old(connected) == {};
    }

    /** An owner deletes the stream for themselves: their viewers are disconnected, and without owners left the
        stream closes. */
    method Delete(session: string)
      requires Valid()
      modifies this
      ensures Valid() && Now() == After(old(Now()), Deleting(session))
    {
      hide ViewersOk, Ordered, LastOf, AllDisconnected, WithinBudget, ClosedStream;
      DeletedValid(Now(), session);
      var mine := set id | id in connected && id in viewers && viewers[id].session == session;
      assert mine == ServedOf(Now(), session);
      DisconnectedOk(viewers, connected, history, mine, "closed_by_owner");
      DisconnectAll(mine, "closed_by_owner");
      owners := owners - {session};
      if owners == {} {
        CloseStream("closed_by_owner");
      }
    }

    method DisconnectAll(ids: set<string>, reason: string)
      requires ViewersOk(viewers, connected, history) && ids <= connected
      modifies this`viewers, this`connected
      ensures ViewersOk(viewers, connected, history)
      ensures viewers == AllDisconnected(old(viewers), ids, reason) && connected == old(connected) - ids
    {
      hide ViewersOk, AllDisconnected;
      DisconnectedOk(viewers, connected, history, ids, reason);
      ghost var before := viewers;
      ConnectedOpen(viewers, connected, history);
      var todo := ids;
      NothingDone(viewers, [], reason);
      assert ids - todo == {};
      while todo != {}
        invariant todo <= ids && connected == old(connected) - (ids - todo)
            && viewers == AllDisconnected(before, ids - todo, reason)
        decreases |todo|
      {
        var id :| id in todo;
        DisconnectStep(before, ids - todo, id, reason);
        assert ids - (todo - {id}) == (ids - todo) + {id};
        Disconnect(id, reason);
        todo := todo - {id};
      }
      assert ids - todo == ids;
    }

    /** Whether a viewer of the session is still served. */
    method Serves(session: string) returns (found: bool)
      ensures found <==> ServedOf(Now(), session) != {}
    {
      var todo := connected;
      found := false;
      while todo != {}
        invariant todo <= connected
        invariant found <==> exists v :: v in connected - todo && v in ServedOf(Now(), session)
        decreases |todo|
      {
        var v :| v in todo;
        if v in viewers && viewers[v].session == session {
          found := true;
        }
        assert connected - (todo - {v}) == (connected - todo) + {v};
        todo := todo - {v};
      }
      assert connected - todo == connected;
    }

    /** A viewer's request ends: it is dropped without being closed, its session goes with its last viewer, and the
        stream with its last owner. */
    method Depart(id: string)
      requires Valid() && id in viewers
      modifies this
      ensures Valid() && Now() == After(old(Now()), Departing(id))
    {
      hide ViewersOk, Ordered, LastOf, WithinBudget, ClosedStream, ServedOf;
      DroppedOk(viewers, connected, history, id);
      var session := viewers[id].session;
      connected := connected - {id};
      var found := Serves(session);
      if !found {
        owners := owners - {session};
      }
      if owners == {} {
        CloseStream("no_viewers");
      }
    }

    /** A viewer takes its next group. */
    method Receive(id: string) returns (group: seq<Record>)
      requires Valid() && id in viewers && viewers[id].taken < |viewers[id].groups|
      modifies this`viewers
      ensures Valid() && Now() == After(old(Now()), Taking(id))
          && group == old(viewers)[id].groups[old(viewers)[id].taken]
    {
      hide ViewerOk, UpToDate, Ordered, WithinBudget, LastOf;
      TakenOk(viewers, connected, history, id);
      group := viewers[id].groups[viewers[id].taken];
      viewers := viewers[id := viewers[id].(taken := viewers[id].taken + 1)];
    }
  }

  lemma TrimmedSuffix(history: seq<Record>, records: seq<Record>, accepted: seq<Record>, kept: seq<Record>)
    requires |records| <= |history| && records == history[|history| - |records|..]
        && LongestWithin(records + accepted, kept)
    ensures WithinBudget(kept) && |kept| <= |history + accepted|
        && kept == (history + accepted)[|history + accepted| - |kept|..]
  {
    var k :| LongestWithinFrom(records + accepted, kept, k);
    assert (history + accepted)[|history| - |records|..] == records + accepted;
  }
}
