/**
 * Picking the bucket shown for a selected time: the bucket whose start is
 * closest to the selection, the earliest one when several are equally
 * close.
 */
module Timeline {
  import opened Aggregator

  /** Absolute difference of two instants, in seconds. */
  function Distance(a: int, b: int): (r: nat)
    ensures r == 0 <==> a == b
    ensures a <= b ==> r == b - a
    ensures b <= a ==> r == a - b
  {
    if a >= b then a - b else b - a
  }

  /**
   * `i` indexes a time closest to `sel`, and no earlier time is as close:
   * the answer of a first-minimum search.
   */
  predicate IsFirstClosest(times: seq<int>, sel: int, i: int) {
    && 0 <= i < |times|
    && (forall j :: 0 <= j < |times| ==> Distance(times[i], sel) <= Distance(times[j], sel))
    && (forall j :: 0 <= j < i ==> Distance(times[i], sel) < Distance(times[j], sel))
  }

  /** The index of the first time closest to `sel`, scanning left to right. */
  method ClosestIndex(times: seq<int>, sel: int) returns (best: nat)
    requires |times| > 0
    ensures IsFirstClosest(times, sel, best)
  {
    best := 0;
    var i := 1;
    while i < |times|
      invariant 1 <= i <= |times| && best < i
      invariant forall j :: 0 <= j < i ==> Distance(times[best], sel) <= Distance(times[j], sel)
      invariant forall j :: 0 <= j < best ==> Distance(times[best], sel) < Distance(times[j], sel)
    {
      if Distance(times[i], sel) < Distance(times[best], sel) {
        best := i;
      }
      i := i + 1;
    }
  }

  /** At most one index is the first closest. */
  lemma FirstClosestUnique(times: seq<int>, sel: int, i: int, j: int)
    requires IsFirstClosest(times, sel, i) && IsFirstClosest(times, sel, j)
    ensures i == j
  {
    assert Distance(times[i], sel) == Distance(times[j], sel);
  }

  /** Strictly increasing times. */
  predicate Ascending(times: seq<int>) {
    forall j, k :: 0 <= j < k < |times| ==> times[j] < times[k]
  }

  /** Selecting a time that is on the list picks that time's index. */
  lemma ExactTimeSelected(times: seq<int>, m: int)
    requires Ascending(times) && 0 <= m < |times|
    ensures IsFirstClosest(times, times[m], m)
  {
    forall j | 0 <= j < m ensures Distance(times[m], times[m]) < Distance(times[j], times[m]) {
      assert times[j] < times[m];
    }
  }

  /** The start times of the buckets, in order. */
  function Starts(buckets: seq<Bucket>): (r: seq<int>)
    ensures |r| == |buckets|
    ensures forall k :: 0 <= k < |r| ==> r[k] == buckets[k].start
  {
    if |buckets| == 0 then [] else [buckets[0].start] + Starts(buckets[1..])
  }

  /**
   * Selecting the start of an aggregated bucket shows that bucket: the
   * slider moves in whole hours between the first and the last bucket.
   */
  lemma SliderShowsBucket(docs: seq<Doc>, m: int)
    requires 0 <= m < |Aggregate(docs)|
    ensures IsFirstClosest(Starts(Aggregate(docs)), Aggregate(docs)[m].start, m)
  {
    var r := Aggregate(docs);
    AggregateHours(docs);
    var times := Starts(r);
    assert Ascending(times) by {
      forall j, k | 0 <= j < k < |times| ensures times[j] < times[k] {
        assert times[j] == HourStart(MinHour(docs) + j) && times[k] == HourStart(MinHour(docs) + k);
      }
    }
    ExactTimeSelected(times, m);
  }

  /** A selection halfway between two buckets shows the earlier one. */
  lemma TieGoesToEarlier()
    ensures IsFirstClosest([0, 3600], 1800, 0)
    ensures !IsFirstClosest([0, 3600], 1800, 1)
  {
  }
}
