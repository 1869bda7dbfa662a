/**
  The arithmetic of log retention shared by the host's hub
  (`internal/spark/logs.go`) and the controller's streams
  (`internal/server/spark_logs.go`): which suffix of the records is kept, and
  which part of it a new viewer is given.
*/
module LogRetention {

  datatype Record = Record(sequence: int, text: string, gap: bool)

  const TAIL_RECORDS := 200
  const TAIL_BYTES := 131072

  /** A record costs its text and a line end. */
  function Size(r: Record): nat {
    |r.text| + 1
  }

  function Total(records: seq<Record>): nat {
    if records == [] then 0 else Size(records[0]) + Total(records[1..])
  }

  lemma {:induction false} TotalAppend(a: seq<Record>, b: seq<Record>)
    ensures Total(a + b) == Total(a) + Total(b)
    decreases |a|
  {
    if a == [] {
      assert a + b == b;
    } else {
      assert (a + b)[0] == a[0] && (a + b)[1..] == a[1..] + b;
      TotalAppend(a[1..], b);
    }
  }

  lemma TotalOne(r: Record)
    ensures Total([r]) == Size(r)
  {
    assert [r][1..] == [];
  }

  /** A nonempty list of records weighs something, and a suffix no more than the whole. */
  lemma TotalSuffix(records: seq<Record>, k: nat)
    requires k <= |records|
    ensures Total(records[k..]) <= Total(records)
  {
    TotalAppend(records[..k], records[k..]);
    assert records[..k] + records[k..] == records;
  }

  // ---------------------------------------------------------------- trimming for a new record

  predicate Fits(records: seq<Record>, size: nat, bytes: nat, count: nat) {
    Total(records) + size <= bytes && |records| < count
  }

  /** `kept` is the longest suffix of `records` that leaves room for a record of the given size, or nothing. */
  ghost predicate LongestFit(records: seq<Record>, kept: seq<Record>, size: nat, bytes: nat, count: nat) {
    exists k :: LongestFrom(records, kept, k, size, bytes, count)
  }

  ghost predicate LongestFrom(records: seq<Record>, kept: seq<Record>, k: int, size: nat, bytes: nat, count: nat) {
    && 0 <= k <= |records| && kept == records[k..] && (kept == [] || Fits(kept, size, bytes, count))
    && forall i :: 0 <= i < k ==> !Fits(records[i..], size, bytes, count)
  }

  /** The records kept when one of the given size is to follow. */
  function Kept(records: seq<Record>, size: nat, bytes: nat, count: nat): seq<Record> {
    if records == [] || Fits(records, size, bytes, count) then records else Kept(records[1..], size, bytes, count)
  }

  lemma {:induction false} KeptIsLongest(records: seq<Record>, size: nat, bytes: nat, count: nat)
    ensures LongestFit(records, Kept(records, size, bytes, count), size, bytes, count)
    decreases |records|
  {
    var kept := Kept(records, size, bytes, count);
    if records == [] || Fits(records, size, bytes, count) {
      assert LongestFrom(records, kept, 0, size, bytes, count);
    } else {
      KeptIsLongest(records[1..], size, bytes, count);
      var k :| LongestFrom(records[1..], kept, k, size, bytes, count);
      assert kept == records[k + 1..];
      forall i | 0 <= i < k + 1
        ensures !Fits(records[i..], size, bytes, count)
      {
        if i == 0 {
          assert records[0..] == records;
        } else {
          assert records[i..] == records[1..][i - 1..];
        }
      }
      assert LongestFrom(records, kept, k + 1, size, bytes, count);
    }
  }

  /** The trimming loop: drop from the front while there is no room. */
  method Trim(records: seq<Record>, used: int, size: nat, bytes: nat, count: nat) returns (kept: seq<Record>, left: int)
    requires used == Total(records)
    ensures LongestFit(records, kept, size, bytes, count) && left == Total(kept)
    ensures kept == Kept(records, size, bytes, count)
  {
    kept, left := records, used;
    ghost var k := 0;
    while (left + size > bytes || |kept| >= count) && |kept| > 0
      invariant 0 <= k <= |records| && kept == records[k..] && left == Total(kept)
      invariant Kept(kept, size, bytes, count) == Kept(records, size, bytes, count)
      invariant forall i :: 0 <= i < k ==> !Fits(records[i..], size, bytes, count)
      decreases |kept|
    {
      left := left - Size(kept[0]);
      kept := kept[1..];
      k := k + 1;
    }
    assert LongestFrom(records, kept, k, size, bytes, count);
  }

  /** What the kept records and the new one together obey. */
  lemma KeptWithNew(records: seq<Record>, kept: seq<Record>, r: Record, bytes: nat, count: nat)
    requires LongestFit(records, kept, Size(r), bytes, count) && count > 0
    ensures Total(kept + [r]) == Total(kept) + Size(r) && |kept + [r]| <= count
    ensures Total(kept + [r]) <= bytes || kept == []
  {
    TotalAppend(kept, [r]);
    TotalOne(r);
  }

  /** Nothing is dropped that still fits. */
  lemma FittingIsKept(records: seq<Record>, kept: seq<Record>, size: nat, bytes: nat, count: nat)
    requires LongestFit(records, kept, size, bytes, count) && Fits(records, size, bytes, count)
    ensures kept == records
  {
    var k :| LongestFrom(records, kept, k, size, bytes, count);
    assert records[0..] == records;
  }

  // ---------------------------------------------------------------- the tail of a new viewer

  predicate TailFits(tail: seq<Record>) {
    |tail| <= TAIL_RECORDS && Total(tail) <= TAIL_BYTES
  }

  /** `tail` is the longest suffix within 200 records and 128 KiB. */
  ghost predicate IsTail(records: seq<Record>, tail: seq<Record>) {
    exists k :: TailFrom(records, tail, k)
  }

  ghost predicate TailFrom(records: seq<Record>, tail: seq<Record>, k: int) {
    && 0 <= k <= |records| && tail == records[k..] && TailFits(tail) && forall i :: 0 <= i < k ==>
        !TailFits(records[i..])
  }

  function Tail(records: seq<Record>): seq<Record> {
    if TailFits(records) then records else Tail(records[1..])
  }

  lemma {:induction false} TailIsTail(records: seq<Record>)
    ensures IsTail(records, Tail(records))
    decreases |records|
  {
    var tail := Tail(records);
    if TailFits(records) {
      assert TailFrom(records, tail, 0);
    } else {
      TailIsTail(records[1..]);
      var k :| TailFrom(records[1..], tail, k);
      assert tail == records[k + 1..];
      forall i | 0 <= i < k + 1
        ensures !TailFits(records[i..])
      {
        if i == 0 {
          assert records[0..] == records;
        } else {
          assert records[i..] == records[1..][i - 1..];
        }
      }
      assert TailFrom(records, tail, k + 1);
    }
  }

  /** The hub's first loop: cut to 200 records. */
  method CutToCount(records: seq<Record>) returns (cut: seq<Record>)
    ensures |cut| <= TAIL_RECORDS && |cut| <= |records| && cut == records[|records| - |cut|..]
        && (|cut| < |records| ==> |cut| == TAIL_RECORDS)
  {
    cut := records;
    while |cut| > TAIL_RECORDS
      invariant |cut| <= |records| && cut == records[|records| - |cut|..]
      invariant |cut| < |records| ==> |cut| >= TAIL_RECORDS
      decreases |cut|
    {
      cut := cut[1..];
    }
  }

  /** The second loop: walk back from the end until the bytes run out. */
  method CutToBytes(cut: seq<Record>) returns (k: nat)
    ensures k <= |cut| && Total(cut[k..]) <= TAIL_BYTES && (k > 0 ==> Total(cut[k - 1..]) > TAIL_BYTES)
  {
    var size := 0;
    k := |cut|;
    assert cut[k..] == [];
    while k > 0
      invariant 0 <= k <= |cut| && size == Total(cut[k..]) && size <= TAIL_BYTES
      decreases k
    {
      size := size + |cut[k - 1].text| + 1;
      assert cut[k - 1..] == [cut[k - 1]] + cut[k..];
      if size > TAIL_BYTES {
        return;
      }
      k := k - 1;
    }
  }

  method TailOf(records: seq<Record>) returns (tail: seq<Record>)
    ensures IsTail(records, tail) && tail == Tail(records)
  {
    var cut := CutToCount(records);
    var k := CutToBytes(cut);
    tail := cut[k..];
    ghost var n := |records| - |cut|;
    assert tail == records[n + k..];
    forall i | 0 <= i < n + k
      ensures !TailFits(records[i..])
    {
      LongerDoesNotFit(records, cut, n, k, i);
    }
    assert TailFrom(records, tail, n + k);
    TailIsTail(records);
    TailUnique(records, tail, Tail(records));
  }

  lemma LongerDoesNotFit(records: seq<Record>, cut: seq<Record>, n: nat, k: nat, i: nat)
    requires n + |cut| == |records| && cut == records[n..] && k <= |cut| && (n > 0 ==> |cut| == TAIL_RECORDS)
        && (k > 0 ==> Total(cut[k - 1..]) > TAIL_BYTES)
    requires i < n + k
    ensures !TailFits(records[i..])
  {
    if n <= i {
      assert records[i..][k - 1 - (i - n)..] == cut[k - 1..];
      TotalSuffix(records[i..], k - 1 - (i - n));
    }
  }

  /** The tail is determined by the records: there is only one. */
  lemma TailUnique(records: seq<Record>, a: seq<Record>, b: seq<Record>)
    requires IsTail(records, a) && IsTail(records, b)
    ensures a == b
  {
    var j :| TailFrom(records, a, j);
    var k :| TailFrom(records, b, k);
    assert j == k;
  }
}
