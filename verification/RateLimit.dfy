/**
  The controller's request limiter (`internal/server/app.go`): one counting
  bucket per key, replaced when its window is over, in a bounded table from
  which only expired buckets are ever removed.
*/
module RateLimit {
  type Time = int

  const MAX_BUCKETS := 4096

  datatype Bucket = Bucket(count: int, until: Time)

  datatype Call = Call(key: string, n: int, window: Time, now: Time)

  function Live(buckets: map<string, Bucket>, now: Time): map<string, Bucket> {
    map k | k in buckets && now < buckets[k].until :: buckets[k]
  }

  /** Count the call in the bucket of its key, unless the bucket is full. */
  function Counted(buckets: map<string, Bucket>, key: string, n: int): (map<string, Bucket>, bool)
    requires key in buckets
  {
    if buckets[key].count >= n then (buckets, false)
    else (buckets[key := buckets[key].(count := buckets[key].count + 1)], true)
  }

  /** The table without the caller's bucket if that has expired. */
  function Current(buckets: map<string, Bucket>, key: string, now: Time): map<string, Bucket> {
    if key in buckets && now >= buckets[key].until then buckets - {key} else buckets
  }

  /** A full table is freed of expired buckets. */
  function Swept(buckets: map<string, Bucket>, now: Time): map<string, Bucket> {
    if |buckets| >= MAX_BUCKETS then Live(buckets, now) else buckets
  }

  /** The table after a call, and whether the call is admitted. */
  function Decide(buckets: map<string, Bucket>, c: Call): (map<string, Bucket>, bool) {
    var current := Current(buckets, c.key, c.now);
    if c.key in current then Counted(current, c.key, c.n)
    else
      var swept := Swept(current, c.now);
      if |swept| >= MAX_BUCKETS then (swept, false)
      else Counted(swept[c.key := Bucket(0, c.now + c.window)], c.key, c.n)
  }

  // ---------------------------------------------------------------- the table

  /** No bucket whose window is still open is ever removed or reset. */
  lemma ActiveBucketsStay(buckets: map<string, Bucket>, c: Call, k: string)
    requires k in buckets && c.now < buckets[k].until
    ensures var after := Decide(buckets, c).0;
            k in after && after[k].until == buckets[k].until && after[k].count >= buckets[k].count
                && (k != c.key ==> after[k] == buckets[k])
  {
  }

  lemma TableBounded(buckets: map<string, Bucket>, c: Call)
    requires |buckets| <= MAX_BUCKETS
    ensures |Decide(buckets, c).0| <= MAX_BUCKETS
  {
    hide Current, Swept, Counted;
    var current := Current(buckets, c.key, c.now);
    var swept := Swept(current, c.now);
    Shrinks(buckets, c.key, c.now);
    if c.key in current {
      CountedSize(current, c.key, c.n);
    } else if |swept| < MAX_BUCKETS {
      CountedSize(swept[c.key := Bucket(0, c.now + c.window)], c.key, c.n);
      AddedSize(swept, c.key, Bucket(0, c.now + c.window));
    }
  }

  lemma AddedSize(buckets: map<string, Bucket>, key: string, b: Bucket)
    ensures |buckets[key := b]| <= |buckets| + 1
  {
    var added := buckets[key := b];
    assert added.Keys == buckets.Keys + {key};
    assert |added.Keys| == |added| && |buckets.Keys| == |buckets|;
  }

  lemma Shrinks(buckets: map<string, Bucket>, key: string, now: Time)
    ensures |Current(buckets, key, now)| <= |buckets| && |Swept(Current(buckets, key, now), now)| <= |buckets|
  {
    var current := Current(buckets, key, now);
    SmallerTable(current, buckets);
    SmallerTable(Swept(current, now), current);
  }

  lemma CountedSize(buckets: map<string, Bucket>, key: string, n: int)
    requires key in buckets
    ensures |Counted(buckets, key, n).0| == |buckets|
  {
    assert Counted(buckets, key, n).0.Keys == buckets.Keys;
    SmallerTable(Counted(buckets, key, n).0, buckets);
    SmallerTable(buckets, Counted(buckets, key, n).0);
  }

  lemma SmallerTable(a: map<string, Bucket>, b: map<string, Bucket>)
    requires a.Keys <= b.Keys
    ensures |a| <= |b|
  {
    SubsetSize(a.Keys, b.Keys);
    assert |a.Keys| == |a| && |b.Keys| == |b|;
  }

  lemma SubsetSize(a: set<string>, b: set<string>)
    requires a <= b
    ensures |a| <= |b|
  {
    assert b == a + (b - a);
  }

  // ---------------------------------------------------------------- runs

  /** An admitted call of a key: when, and until when its bucket was open. */
  datatype Admission = Admission(at: Time, until: Time)

  function Table(calls: seq<Call>): map<string, Bucket>
    decreases |calls|
  {
    if calls == [] then map[] else Decide(Table(calls[..|calls| - 1]), calls[|calls| - 1]).0
  }

  /** The admissions of a key over a run of calls. */
  function Admissions(calls: seq<Call>, key: string): seq<Admission>
    decreases |calls|
  {
    if calls == [] then []
    else
      var before, c := Admissions(calls[..|calls| - 1], key), calls[|calls| - 1];
      var (after, ok) := Decide(Table(calls[..|calls| - 1]), c);
      if c.key == key && ok && key in after then before + [Admission(c.now, after[key].until)] else before
  }

  /** Every table over every run is bounded. */
  lemma {:induction false} TablesBounded(calls: seq<Call>)
    ensures |Table(calls)| <= MAX_BUCKETS
    decreases |calls|
  {
    if calls != [] {
      TablesBounded(calls[..|calls| - 1]);
      TableBounded(Table(calls[..|calls| - 1]), calls[|calls| - 1]);
    }
  }

  ghost predicate Ordered(calls: seq<Call>) {
    forall i, j :: 0 <= i < j < |calls| ==> calls[i].now <= calls[j].now
  }

  ghost predicate SameLimit(calls: seq<Call>, key: string, n: int, window: Time) {
    forall i :: 0 <= i < |calls| && calls[i].key == key ==> calls[i].n == n && calls[i].window == window
  }

  function CountUntil(log: seq<Admission>, until: Time): nat {
    if log == [] then 0 else CountUntil(log[..|log| - 1], until) + if log[|log| - 1].until == until then 1 else 0
  }

  function CountIn(log: seq<Admission>, from: Time, to: Time): nat {
    if log == [] then 0 else CountIn(log[..|log| - 1], from, to) + if from <= log[|log| - 1].at <= to then 1 else 0
  }

  /** Buckets follow each other at least a window apart. */
  ghost predicate Spaced(log: seq<Admission>, window: Time) {
    && (forall i :: 0 <= i < |log| ==> log[i].until - window <= log[i].at < log[i].until)
    && (forall i, j :: 0 <= i < j < |log| ==> log[i].until == log[j].until || log[i].until + window <= log[j].until)
  }

  predicate Full(log: seq<Admission>, n: int, until: Time) {
    CountUntil(log, until) <= (if n < 0 then 0 else n)
  }

  /** The log and the bucket of its key agree: the bucket holds the newest admissions, and a missing bucket has
      expired. */
  ghost predicate Agrees(log: seq<Admission>, buckets: map<string, Bucket>, key: string, n: int, window: Time,
                         now: Time) {
    && Spaced(log, window) && (forall until :: Full(log, n, until))
    && (log != [] && (key !in buckets || buckets[key].until != log[|log| - 1].until) ==> log[|log| - 1].until <= now)
    && (key in buckets ==>
          && buckets[key].until <= now + window && 0 <= buckets[key].count
          && CountUntil(log, buckets[key].until) == buckets[key].count
          && (forall i :: 0 <= i < |log| ==>
               log[i].until == buckets[key].until || log[i].until + window <= buckets[key].until))
  }

  lemma {:induction false} NoneUntil(log: seq<Admission>, until: Time)
    requires forall i :: 0 <= i < |log| ==> log[i].until != until
    ensures CountUntil(log, until) == 0
    decreases |log|
  {
    if log != [] {
      NoneUntil(log[..|log| - 1], until);
    }
  }

  lemma AppendCounts(log: seq<Admission>, a: Admission, until: Time)
    ensures CountUntil(log + [a], until) == CountUntil(log, until) + if a.until == until then 1 else 0
  {
    assert (log + [a])[..|log|] == log;
  }

  /** A call of another key leaves the bucket of this key alone, unless it has expired. */
  lemma OtherCall(log: seq<Admission>, buckets: map<string, Bucket>, key: string, n: int, window: Time, now: Time,
                  c: Call)
    requires Agrees(log, buckets, key, n, window, now) && c.key != key && now <= c.now && window > 0
    ensures Agrees(log, Decide(buckets, c).0, key, n, window, c.now)
  {
    hide Decide, CountUntil, Full;
    OtherBucket(buckets, c, key);
  }

  lemma OtherBucket(buckets: map<string, Bucket>, c: Call, key: string)
    requires c.key != key
    ensures var after := Decide(buckets, c).0;
            && (key in after ==> key in buckets && after[key] == buckets[key])
            && (key in buckets && key !in after ==> buckets[key].until <= c.now)
  {
  }

  /** The table just before counting: the bucket of the key is open, new or not. */
  lemma OpenBucket(log: seq<Admission>, buckets: map<string, Bucket>, key: string, n: int, window: Time, now: Time,
                   c: Call)
    requires Agrees(log, buckets, key, n, window, now) && c.key == key && c.n == n && c.window == window && now <= c.now
        && window > 0
    requires key in buckets && c.now < buckets[key].until
    ensures Agrees(log, buckets, key, n, window, c.now)
  {
  }

  lemma NewBucket(log: seq<Admission>, buckets: map<string, Bucket>, swept: map<string, Bucket>, key: string, n: int,
                  window: Time, now: Time, at: Time)
    requires Agrees(log, buckets, key, n, window, now) && now <= at && window > 0
    requires key in buckets ==> buckets[key].until <= at
    ensures Agrees(log, swept[key := Bucket(0, at + window)], key, n, window, at)
    ensures key !in swept ==> Agrees(log, swept, key, n, window, at)
  {
    forall i | 0 <= i < |log|
      ensures log[i].until <= at
    {
      if i < |log| - 1 {
        assert log[i].until == log[|log| - 1].until || log[i].until + window <= log[|log| - 1].until;
      }
    }
    NoneUntil(log, at + window);
  }

  lemma CountCall(log: seq<Admission>, buckets: map<string, Bucket>, key: string, n: int, window: Time, at: Time)
    requires Agrees(log, buckets, key, n, window, at) && key in buckets && at < buckets[key].until && window > 0
    ensures var (after, ok) := Counted(buckets, key, n);
            Agrees(if ok then log + [Admission(at, buckets[key].until)] else log, after, key, n, window, at)
  {
    hide CountUntil, Full;
    if buckets[key].count < n {
      var a := Admission(at, buckets[key].until);
      LogGrows(log, a, n, buckets[key].count);
      AppendCounts(log, a, a.until);
      SpacedGrows(log, a, window);
      var after := Counted(buckets, key, n).0;
      assert after[key] == Bucket(buckets[key].count + 1, a.until);
      assert forall i :: 0 <= i < |log + [a]| ==> (log + [a])[i] == if i < |log| then log[i] else a;
    }
  }

  lemma SpacedGrows(log: seq<Admission>, a: Admission, window: Time)
    requires Spaced(log, window) && a.until - window <= a.at < a.until
    requires forall i :: 0 <= i < |log| ==> log[i].until == a.until || log[i].until + window <= a.until
    ensures Spaced(log + [a], window)
  {
  }

  lemma LogGrows(log: seq<Admission>, a: Admission, n: int, count: int)
    requires (forall until :: Full(log, n, until)) && CountUntil(log, a.until) == count && 0 <= count < n
    ensures forall until :: Full(log + [a], n, until)
  {
    forall until
      ensures Full(log + [a], n, until)
    {
      AppendCounts(log, a, until);
      assert Full(log, n, until);
    }
  }

  lemma OwnCall(log: seq<Admission>, buckets: map<string, Bucket>, key: string, n: int, window: Time, now: Time,
                c: Call)
    requires Agrees(log, buckets, key, n, window, now) && c.key == key && c.n == n && c.window == window && now <= c.now
        && window > 0
    ensures var (after, ok) := Decide(buckets, c);
            && (ok ==> key in after)
            && Agrees(if ok && key in after then log + [Admission(c.now, after[key].until)] else log, after, key, n,
                window, c.now)
  {
    hide Agrees, Live, Counted;
    var current := Current(buckets, key, c.now);
    if key in current {
      OpenBucket(log, buckets, key, n, window, now, c);
      CountCall(log, buckets, key, n, window, c.now);
      CountedKeeps(buckets, key, n);
    } else {
      var swept := Swept(current, c.now);
      assert key !in swept by { SweptAmong(current, c.now); }
      NewBucket(log, buckets, swept, key, n, window, now, c.now);
      if |swept| < MAX_BUCKETS {
        CountCall(log, swept[key := Bucket(0, c.now + window)], key, n, window, c.now);
        CountedKeeps(swept[key := Bucket(0, c.now + window)], key, n);
      }
    }
  }

  lemma SweptAmong(buckets: map<string, Bucket>, now: Time)
    ensures Swept(buckets, now).Keys <= buckets.Keys
  {
  }

  lemma CountedKeeps(buckets: map<string, Bucket>, key: string, n: int)
    requires key in buckets
    ensures key in Counted(buckets, key, n).0 && Counted(buckets, key, n).0[key].until == buckets[key].until
  {
  }

  lemma {:induction false} RunAgrees(calls: seq<Call>, key: string, n: int, window: Time)
    requires Ordered(calls) && SameLimit(calls, key, n, window) && window > 0
    ensures Agrees(Admissions(calls, key), Table(calls), key, n, window, if calls == [] then 0
        else calls[|calls| - 1].now)
    decreases |calls|
  {
    if calls == [] {
      assert forall until :: Full([], n, until);
    } else {
      var prefix, c := calls[..|calls| - 1], calls[|calls| - 1];
      RunAgrees(prefix, key, n, window);
      var now := if prefix == [] then c.now else prefix[|prefix| - 1].now;
      if prefix == [] {
        assert forall until :: Full([], n, until);
      }
      assert Agrees(Admissions(prefix, key), Table(prefix), key, n, window, now);
      if c.key == key {
        OwnCall(Admissions(prefix, key), Table(prefix), key, n, window, now, c);
      } else {
        OtherCall(Admissions(prefix, key), Table(prefix), key, n, window, now, c);
      }
    }
  }

  // ---------------------------------------------------------------- the bound

  /** If the admissions in an interval come from two buckets only, there are at most as many as in both. */
  lemma {:induction false} CountTwo(log: seq<Admission>, from: Time, to: Time, u: Time, v: Time)
    requires forall i :: 0 <= i < |log| && from <= log[i].at <= to ==> log[i].until == u || log[i].until == v
    ensures CountIn(log, from, to) <= CountUntil(log, u) + CountUntil(log, v)
    decreases |log|
  {
    if log != [] {
      CountTwo(log[..|log| - 1], from, to, u, v);
    }
  }

  lemma {:induction false} NoneIn(log: seq<Admission>, from: Time, to: Time)
    requires forall i :: 0 <= i < |log| ==> !(from <= log[i].at <= to)
    ensures CountIn(log, from, to) == 0
    decreases |log|
  {
    if log != [] {
      NoneIn(log[..|log| - 1], from, to);
    }
  }

  /** Three buckets never meet one interval as long as the window. */
  lemma TwoBuckets(log: seq<Admission>, window: Time, from: Time, i: int, j: int, k: int)
    requires Spaced(log, window) && window > 0 && 0 <= i <= j <= k < |log|
    requires from <= log[i].at && log[k].at <= from + window
    ensures log[j].until == log[i].until || log[j].until == log[k].until
  {
  }

  /** Over every run with a clock that does not go back: for a key always used with limit `n` and the same positive
      window, no closed interval as long as the window holds more than `2n` admissions. */
  lemma AtMostTwiceTheLimit(calls: seq<Call>, key: string, n: nat, window: Time, from: Time)
    requires Ordered(calls) && SameLimit(calls, key, n, window) && window > 0
    ensures CountIn(Admissions(calls, key), from, from + window) <= 2 * n
  {
    RunAgrees(calls, key, n, window);
    SpacedBound(Admissions(calls, key), n, window, from);
  }

  lemma SpacedBound(log: seq<Admission>, n: nat, window: Time, from: Time)
    requires Spaced(log, window) && window > 0 && forall until :: Full(log, n, until)
    ensures CountIn(log, from, from + window) <= 2 * n
  {
    hide CountIn, CountUntil;
    var i := 0;
    while i < |log| && !(from <= log[i].at <= from + window)
      invariant 0 <= i <= |log| && forall j :: 0 <= j < i ==> !(from <= log[j].at <= from + window)
    {
      i := i + 1;
    }
    if i == |log| {
      NoneIn(log, from, from + window);
      return;
    }
    var k := |log| - 1;
    while !(from <= log[k].at <= from + window)
      invariant i <= k < |log| && forall j :: k < j < |log| ==> !(from <= log[j].at <= from + window)
      decreases k
    {
      k := k - 1;
    }
    forall j | 0 <= j < |log| && from <= log[j].at <= from + window
      ensures log[j].until == log[i].until || log[j].until == log[k].until
    {
      TwoBuckets(log, window, from, i, j, k);
    }
    CountTwo(log, from, from + window, log[i].until, log[k].until);
    assert Full(log, n, log[i].until) && Full(log, n, log[k].until);
    FullCounts(log, n, log[i].until);
    FullCounts(log, n, log[k].until);
  }

  lemma FullCounts(log: seq<Admission>, n: nat, until: Time)
    requires Full(log, n, until)
    ensures CountUntil(log, until) <= n
  {
  }

  /** A call that finds the table empty, or with nothing but its own expired bucket. */
  lemma FirstCall(buckets: map<string, Bucket>, c: Call)
    requires buckets.Keys <= {c.key} && (c.key in buckets ==> buckets[c.key].until <= c.now) && c.n > 0
    ensures Decide(buckets, c) == (map[c.key := Bucket(1, c.now + c.window)], true)
  {
    var current := Current(buckets, c.key, c.now);
    assert current.Keys == {};
    assert |current| == |current.Keys|;
    assert current == map[] && Swept(current, c.now) == map[];
    var added: map<string, Bucket> := map[][c.key := Bucket(0, c.now + c.window)];
    assert added[c.key := added[c.key].(count := 1)] == map[c.key := Bucket(1, c.now + c.window)];
  }

  /** A call in an open bucket that is not full, in a table of its own. */
  lemma FurtherCall(c: Call, bucket: Bucket)
    requires c.now < bucket.until && bucket.count < c.n
    ensures Decide(map[c.key := bucket], c) == (map[c.key := bucket.(count := bucket.count + 1)], true)
  {
    var table := map[c.key := bucket];
    assert table[c.key := bucket.(count := bucket.count + 1)] == map[c.key := bucket.(count := bucket.count + 1)];
  }

  /** The first `k` of `n` calls at the start of a window and `n` calls at its end. */
  function Burst(key: string, n: nat, window: Time, k: nat): seq<Call> {
    if k == 0 then [] else Burst(key, n, window, k - 1) + [Call(key, n, window, if k <= n then 0 else window)]
  }

  lemma {:induction false} BurstAdmitted(key: string, n: nat, window: Time, k: nat)
    requires window > 0 && k <= 2 * n
    ensures var calls := Burst(key, n, window, k);
            && |calls| == k && Ordered(calls) && SameLimit(calls, key, n, window)
                && (k > 0 ==> calls[k - 1].now == if k <= n then 0 else window)
            && Table(calls) == (if k == 0 then map[] else if k <= n then map[key := Bucket(k, window)]
                else map[key := Bucket(k - n, 2 * window)])
            && CountIn(Admissions(calls, key), 0, window) == k
    decreases k
  {
    hide Decide, Table, Admissions, CountIn;
    EmptyRun(key, 0, window);
    if k > 0 {
      BurstAdmitted(key, n, window, k - 1);
      var calls, c := Burst(key, n, window, k - 1), Call(key, n, window, if k <= n then 0 else window);
      if k == 1 || k == n + 1 {
        FirstCall(Table(calls), c);
      } else {
        FurtherCall(c, Table(calls)[key]);
      }
      RunSnoc(calls, c, key, 0, window);
    }
  }

  /** The bound is reached for every limit and window: `n` calls at the start of a window and `n` at its end are all
      admitted. */
  lemma BoundReached(key: string, n: nat, window: Time)
    requires window > 0
    ensures var calls := Burst(key, n, window, 2 * n);
            Ordered(calls) && SameLimit(calls, key, n, window) && CountIn(Admissions(calls, key), 0, window) == 2 * n
  {
    hide Table, Admissions, CountIn, Burst;
    BurstAdmitted(key, n, window, 2 * n);
  }

  lemma EmptyRun(key: string, from: Time, to: Time)
    ensures Table([]) == map[] && Admissions([], key) == [] && CountIn([], from, to) == 0
  {
  }

  /** One more call at the end of a run. */
  lemma RunSnoc(calls: seq<Call>, c: Call, key: string, from: Time, to: Time)
    requires c.key == key
    ensures var (after, ok) := Decide(Table(calls), c);
            && Table(calls + [c]) == after
            && Admissions(calls + [c], key) == (if ok && key in after
                then Admissions(calls, key) + [Admission(c.now, after[key].until)] else Admissions(calls, key))
            && CountIn(Admissions(calls + [c], key), from, to) == CountIn(Admissions(calls, key), from, to) + (if ok
                && key in after && from <= c.now <= to then 1 else 0)
  {
    hide Decide;
    assert (calls + [c])[..|calls|] == calls;
    var (after, ok) := Decide(Table(calls), c);
    var log := Admissions(calls, key);
    if ok && key in after {
      assert (log + [Admission(c.now, after[key].until)])[..|log|] == log;
    }
  }

  /** Without a positive window there is no limit: every call of the key is admitted. */
  lemma NoWindowNoLimit(buckets: map<string, Bucket>, c: Call)
    requires c.window <= 0 && c.n > 0 && |buckets| < MAX_BUCKETS && (c.key in buckets ==> buckets[c.key].until <= c.now)
    ensures var (after, ok) := Decide(buckets, c); ok && c.key in after && after[c.key].until <= c.now
  {
    Shrinks(buckets, c.key, c.now);
  }

  // ---------------------------------------------------------------- the limiter

  class Limiter {
    var limiters: map<string, Bucket>

    constructor ()
      ensures limiters == map[]
    {
      limiters := map[];
    }

    /** Expired buckets are removed one by one. */
    method Sweep(now: Time)
      modifies this
      ensures limiters == Live(old(limiters), now)
    {
      var todo := limiters.Keys;
      ghost var all := limiters.Keys;
      while todo != {}
        invariant todo <= all && todo <= limiters.Keys <= all
            && (forall k :: k in limiters ==> limiters[k] == old(limiters)[k])
        invariant forall k :: k in all - todo ==> (k in limiters <==> now < old(limiters)[k].until)
        decreases |todo|
      {
        var k :| k in todo;
        if now >= limiters[k].until {
          limiters := limiters - {k};
        }
        todo := todo - {k};
      }
      assert limiters == Live(old(limiters), now);
    }

    method RateLimit(key: string, n: int, window: Time, now: Time) returns (ok: bool)
      modifies this
      ensures (limiters, ok) == Decide(old(limiters), Call(key, n, window, now))
    {
      if key in limiters && now >= limiters[key].until {
        limiters := limiters - {key};
      }
      if key !in limiters {
        if |limiters| >= MAX_BUCKETS {
          Sweep(now);
        }
        if |limiters| >= MAX_BUCKETS {
          return false;
        }
        limiters := limiters[key := Bucket(0, now + window)];
      }
      if limiters[key].count >= n {
        return false;
      }
      limiters := limiters[key := limiters[key].(count := limiters[key].count + 1)];
      return true;
    }
  }
}
