/**
 * Hourly aggregation of per-document emotion scores: documents are grouped
 * by the hour their timestamp falls in, each category is averaged within
 * the hour, and every hour from the earliest to the latest document gets a
 * bucket, empty hours reading zero.
 */
module Aggregator {
  import opened Emotions

  /** The first second of hour `h`; an hour is 3600 seconds long. */
  function HourStart(h: int): int {
    h * 3600
  }

  /** A score cell as read from a document: a number, or something that is not one. */
  datatype Cell = Num(x: real) | NonNumeric

  /**
   * A scored document: its timestamp in seconds and its score cells; a
   * category without a key is a missing column.
   */
  datatype Doc = Doc(timestamp: int, cells: map<Emotion, Cell>)

  /** One output row: the first second of the hour and the eight means. */
  datatype Bucket = Bucket(start: int, means: Scores)

  /** The hour a timestamp falls in, counted from the epoch; rounds down. */
  function HourOf(t: int): (r: int)
    ensures HourStart(r) <= t < HourStart(r + 1)
  {
    t / 3600
  }

  /** The value of a cell after coercion: missing and non-numeric read as 0. */
  function Value(d: Doc, e: Emotion): (r: real)
    ensures e !in d.cells ==> r == 0.0
    ensures e in d.cells && d.cells[e].NonNumeric? ==> r == 0.0
    ensures e in d.cells && d.cells[e].Num? ==> r == d.cells[e].x
  {
    if e in d.cells && d.cells[e].Num? then d.cells[e].x else 0.0
  }

  // ---------------------------------------------------------------------------
  // Sums over documents
  // ---------------------------------------------------------------------------

  /** What to add up over the documents of one hour. */
  datatype Measure = CountOf(hour: int) | SumOf(hour: int, e: Emotion)

  /** The contribution of one document to a measure. */
  function Weight(m: Measure, d: Doc): real {
    if HourOf(d.timestamp) != m.hour then 0.0
    else match m
      case CountOf(_) => 1.0
      case SumOf(_, e) => Value(d, e)
  }

  /** A measure added up over a sequence of documents. */
  function Total(docs: seq<Doc>, m: Measure): real {
    if |docs| == 0 then 0.0 else Weight(m, docs[0]) + Total(docs[1..], m)
  }

  /** Number of documents in hour `h`. */
  function CountIn(docs: seq<Doc>, h: int): real {
    Total(docs, CountOf(h))
  }

  /** Sum of the coerced `e` values of the documents in hour `h`. */
  function SumIn(docs: seq<Doc>, h: int, e: Emotion): real {
    Total(docs, SumOf(h, e))
  }

  /** Totals add up over concatenation. */
  lemma {:induction false} TotalAppend(a: seq<Doc>, b: seq<Doc>, m: Measure)
    ensures Total(a + b, m) == Total(a, m) + Total(b, m)
    decreases |a|
  {
    if |a| == 0 {
      assert a + b == b;
    } else {
      assert (a + b)[1..] == a[1..] + b;
      TotalAppend(a[1..], b, m);
    }
  }

  /** The total of two documents is the sum of their weights. */
  lemma TotalTwo(a: Doc, b: Doc, m: Measure)
    ensures Total([a, b], m) == Weight(m, a) + Weight(m, b)
  {
    assert [a, b][1..] == [b];
    assert [b][1..] == [];
    assert Total([b], m) == Weight(m, b) + Total([], m);
    assert Total([a, b], m) == Weight(m, a) + Total([b], m);
  }

  /** Totals depend only on the multiset of documents, not on their order. */
  lemma {:induction false} TotalPermutation(a: seq<Doc>, b: seq<Doc>, m: Measure)
    requires multiset(a) == multiset(b)
    ensures Total(a, m) == Total(b, m)
    decreases |a|
  {
    if |a| == 0 {
      assert |b| == |multiset(b)| == 0;
    } else {
      var x := a[0];
      assert x in multiset(b);
      var j :| 0 <= j < |b| && b[j] == x;
      var rest := b[..j] + b[j + 1..];
      RemoveAt(b, j);
      assert a == [x] + a[1..];
      assert multiset(a[1..]) == multiset(rest);
      TotalPermutation(a[1..], rest, m);
      TotalWithout(b, j, m);
    }
  }

  /** The total of a sequence is one element's weight plus the total of the others. */
  lemma TotalWithout(b: seq<Doc>, j: nat, m: Measure)
    requires j < |b|
    ensures Total(b, m) == Weight(m, b[j]) + Total(b[..j] + b[j + 1..], m)
  {
    assert b == b[..j] + [b[j]] + b[j + 1..];
    TotalAppend(b[..j] + [b[j]], b[j + 1..], m);
    TotalAppend(b[..j], [b[j]], m);
    TotalAppend(b[..j], b[j + 1..], m);
    assert Total([b[j]], m) == Weight(m, b[j]);
  }

  /** Removing one position removes one copy of its element. */
  lemma RemoveAt<T>(s: seq<T>, j: nat)
    requires j < |s|
    ensures multiset(s[..j] + s[j + 1..]) == multiset(s) - multiset{s[j]}
  {
    assert s == s[..j] + [s[j]] + s[j + 1..];
    assert multiset(s) == multiset(s[..j]) + multiset{s[j]} + multiset(s[j + 1..]);
  }

  /** Totals of pointwise-ordered weights are ordered. */
  lemma {:induction false} TotalMono(docs: seq<Doc>, m: Measure, n: Measure)
    requires forall k :: 0 <= k < |docs| ==> 0.0 <= Weight(m, docs[k]) <= Weight(n, docs[k])
    ensures 0.0 <= Total(docs, m) <= Total(docs, n)
    decreases |docs|
  {
    if |docs| > 0 {
      TotalMono(docs[1..], m, n);
    }
  }

  /** Sequences whose documents agree on a measure have the same total. */
  lemma {:induction false} TotalPointwise(a: seq<Doc>, b: seq<Doc>, m: Measure)
    requires |a| == |b| && forall k :: 0 <= k < |a| ==> Weight(m, a[k]) == Weight(m, b[k])
    ensures Total(a, m) == Total(b, m)
    decreases |a|
  {
    if |a| > 0 {
      TotalPointwise(a[1..], b[1..], m);
    }
  }

  // ---------------------------------------------------------------------------
  // Means and the hour range
  // ---------------------------------------------------------------------------

  /**
   * An hour has no documents exactly when its count is zero, and then every
   * category sums to zero there.
   */
  lemma {:induction false} CountZero(docs: seq<Doc>, h: int, e: Emotion)
    ensures CountIn(docs, h) >= 0.0
    ensures CountIn(docs, h) == 0.0 <==> forall k :: 0 <= k < |docs| ==> HourOf(docs[k].timestamp) != h
    ensures CountIn(docs, h) == 0.0 ==> SumIn(docs, h, e) == 0.0
    decreases |docs|
  {
    if |docs| > 0 {
      CountZero(docs[1..], h, e);
      assert forall k :: 1 <= k < |docs| ==> docs[k] == docs[1..][k - 1];
    }
  }

  /** Mean of the coerced `e` values in hour `h`; an hour without documents has mean 0. */
  function MeanIn(docs: seq<Doc>, h: int, e: Emotion): (r: real)
    ensures (forall k :: 0 <= k < |docs| ==> HourOf(docs[k].timestamp) != h) ==> r == 0.0
  {
    CountZero(docs, h, e);
    if CountIn(docs, h) == 0.0 then 0.0 else SumIn(docs, h, e) / CountIn(docs, h)
  }

  /**
   * The mean times the hour's document count is the hour's sum, including
   * the empty hour, whose sum is zero: the mean is the arithmetic mean.
   */
  lemma MeanTimesCount(docs: seq<Doc>, h: int, e: Emotion)
    ensures MeanIn(docs, h, e) * CountIn(docs, h) == SumIn(docs, h, e)
  {
    CountZero(docs, h, e);
  }

  /** The earliest hour of a non-empty document list: no document is earlier. */
  function MinHour(docs: seq<Doc>): (r: int)
    requires |docs| > 0
    ensures forall k :: 0 <= k < |docs| ==> r <= HourOf(docs[k].timestamp)
  {
    var h := HourOf(docs[0].timestamp);
    if |docs| == 1 then h
    else
      var m := MinHour(docs[1..]);
      assert forall k :: 1 <= k < |docs| ==> docs[k] == docs[1..][k - 1];
      if h <= m then h else m
  }

  /** The latest hour of a non-empty document list: no document is later. */
  function MaxHour(docs: seq<Doc>): (r: int)
    requires |docs| > 0
    ensures forall k :: 0 <= k < |docs| ==> HourOf(docs[k].timestamp) <= r
  {
    var h := HourOf(docs[0].timestamp);
    if |docs| == 1 then h
    else
      var m := MaxHour(docs[1..]);
      assert forall k :: 1 <= k < |docs| ==> docs[k] == docs[1..][k - 1];
      if h >= m then h else m
  }

  /** The earliest and the latest hour are each the hour of some document. */
  lemma {:induction false} HoursAttained(docs: seq<Doc>)
    requires |docs| > 0
    ensures exists k :: 0 <= k < |docs| && HourOf(docs[k].timestamp) == MinHour(docs)
    ensures exists k :: 0 <= k < |docs| && HourOf(docs[k].timestamp) == MaxHour(docs)
    decreases |docs|
  {
    var h := HourOf(docs[0].timestamp);
    if |docs| == 1 {
      assert HourOf(docs[0].timestamp) == MinHour(docs) == MaxHour(docs);
    } else {
      var rest := docs[1..];
      HoursAttained(rest);
      var i :| 0 <= i < |rest| && HourOf(rest[i].timestamp) == MinHour(rest);
      var j :| 0 <= j < |rest| && HourOf(rest[j].timestamp) == MaxHour(rest);
      assert rest[i] == docs[i + 1] && rest[j] == docs[j + 1];
      if h <= MinHour(rest) {
        assert HourOf(docs[0].timestamp) == MinHour(docs);
      } else {
        assert HourOf(docs[i + 1].timestamp) == MinHour(docs);
      }
      if h >= MaxHour(rest) {
        assert HourOf(docs[0].timestamp) == MaxHour(docs);
      } else {
        assert HourOf(docs[j + 1].timestamp) == MaxHour(docs);
      }
    }
  }

  /**
   * `b` is the bucket of hour `h`: it starts at the hour's first second and
   * holds every category's mean over the hour.
   */
  predicate MeanBucket(docs: seq<Doc>, h: int, b: Bucket) {
    && b.start == HourStart(h)
    && Complete(b.means)
    && (forall e: Emotion :: b.means[e] == MeanIn(docs, h, e))
  }

  /** The bucket of hour `h`. */
  function BucketAt(docs: seq<Doc>, h: int): (r: Bucket)
    ensures MeanBucket(docs, h, r)
  {
    Bucket(HourStart(h), map e: Emotion | true :: MeanIn(docs, h, e))
  }

  /** The buckets of the `n` consecutive hours starting at hour `lo`, in order. */
  function Buckets(docs: seq<Doc>, lo: int, n: nat): (r: seq<Bucket>)
    ensures |r| == n
  {
    if n == 0 then [] else Buckets(docs, lo, n - 1) + [BucketAt(docs, lo + n - 1)]
  }

  /** Position `k` of the buckets from hour `lo` holds the bucket of hour `lo + k`. */
  lemma {:induction false} BucketsIndex(docs: seq<Doc>, lo: int, n: nat, k: nat)
    requires k < n
    ensures Buckets(docs, lo, n)[k] == BucketAt(docs, lo + k)
    decreases n
  {
    var prev := Buckets(docs, lo, n - 1);
    assert Buckets(docs, lo, n) == prev + [BucketAt(docs, lo + n - 1)];
    if k < n - 1 {
      BucketsIndex(docs, lo, n - 1, k);
      assert Buckets(docs, lo, n)[k] == prev[k];
    }
  }

  /** The number of hours from the earliest to the latest document, both included. */
  function Span(docs: seq<Doc>): (n: nat)
    requires |docs| > 0
    ensures n == MaxHour(docs) - MinHour(docs) + 1
  {
    assert MinHour(docs) <= HourOf(docs[0].timestamp) <= MaxHour(docs);
    MaxHour(docs) - MinHour(docs) + 1
  }

  /**
   * Per-hour means over every hour from the earliest to the latest document,
   * in ascending order; no documents, no buckets.
   */
  function Aggregate(docs: seq<Doc>): (r: seq<Bucket>)
    ensures |r| == 0 <==> |docs| == 0
  {
    if |docs| == 0 then []
    else Buckets(docs, MinHour(docs), Span(docs))
  }

  /**
   * A non-empty input gives one bucket per hour from the earliest to the
   * latest document, both included.
   */
  lemma AggregateLength(docs: seq<Doc>)
    requires |docs| > 0
    ensures |Aggregate(docs)| == Span(docs) == MaxHour(docs) - MinHour(docs) + 1
  {
    AggregateUnfold(docs);
  }

  /** A non-empty input's buckets are the run over its hour range. */
  lemma AggregateUnfold(docs: seq<Doc>)
    requires |docs| > 0
    ensures Aggregate(docs) == Buckets(docs, MinHour(docs), Span(docs))
  {
  }

  /**
   * The buckets are in ascending order, one hour apart: bucket `k` starts
   * `k` hours after the earliest document's hour.
   */
  lemma AggregateHours(docs: seq<Doc>)
    requires |docs| > 0
    ensures forall k :: 0 <= k < |Aggregate(docs)| ==> Aggregate(docs)[k].start == HourStart(MinHour(docs) + k)
  {
    forall k | 0 <= k < |Aggregate(docs)| ensures Aggregate(docs)[k].start == HourStart(MinHour(docs) + k) {
      AggregateAt(docs, k);
    }
  }

  /**
   * Bucket `k` belongs to the `k`-th hour from the earliest one and holds
   * that hour's mean of every category.
   */
  lemma AggregateMeans(docs: seq<Doc>)
    requires |docs| > 0
    ensures forall k :: 0 <= k < |Aggregate(docs)| ==> MeanBucket(docs, MinHour(docs) + k, Aggregate(docs)[k])
  {
    forall k | 0 <= k < |Aggregate(docs)| ensures MeanBucket(docs, MinHour(docs) + k, Aggregate(docs)[k]) {
      AggregateAt(docs, k);
    }
  }

  /** A bucket whose hour holds no document reads 0 in every category. */
  lemma EmptyHourAllZero(docs: seq<Doc>, k: nat)
    requires |docs| > 0 && k < |Aggregate(docs)|
    requires forall j :: 0 <= j < |docs| ==> HourOf(docs[j].timestamp) != MinHour(docs) + k
    ensures Complete(Aggregate(docs)[k].means)
    ensures forall e: Emotion :: Aggregate(docs)[k].means[e] == 0.0
  {
    var h := MinHour(docs) + k;
    AggregateAt(docs, k);
    forall e: Emotion ensures BucketAt(docs, h).means[e] == 0.0 {
      assert BucketAt(docs, h).means[e] == MeanIn(docs, h, e);
    }
  }

  // ---------------------------------------------------------------------------
  // Properties of the aggregation
  // ---------------------------------------------------------------------------

  /** Bucket `k` of the aggregation is the bucket of the `k`-th hour of the range. */
  lemma AggregateAt(docs: seq<Doc>, k: nat)
    requires |docs| > 0 && k < |Aggregate(docs)|
    ensures Aggregate(docs)[k] == BucketAt(docs, MinHour(docs) + k)
  {
    AggregateUnfold(docs);
    BucketsIndex(docs, MinHour(docs), Span(docs), k);
  }

  /** Lists with the same count and sums in hour `h` have the same bucket for `h`. */
  lemma BucketAtSame(a: seq<Doc>, b: seq<Doc>, h: int)
    requires CountIn(a, h) == CountIn(b, h)
    requires forall e: Emotion :: SumIn(a, h, e) == SumIn(b, h, e)
    ensures BucketAt(a, h) == BucketAt(b, h)
  {
    assert forall e: Emotion :: MeanIn(a, h, e) == MeanIn(b, h, e);
  }

  /**
   * Two document lists with the same hour range and the same per-hour counts
   * and sums aggregate to the same buckets.
   */
  lemma AggregateSame(a: seq<Doc>, b: seq<Doc>)
    requires |a| == 0 <==> |b| == 0
    requires |a| > 0 ==> MinHour(a) == MinHour(b) && MaxHour(a) == MaxHour(b)
    requires forall h :: CountIn(a, h) == CountIn(b, h)
    requires forall h, e: Emotion :: SumIn(a, h, e) == SumIn(b, h, e)
    ensures Aggregate(a) == Aggregate(b)
  {
    forall h ensures BucketAt(a, h) == BucketAt(b, h) {
      BucketAtSame(a, b, h);
    }
    if |a| > 0 {
      BucketsSame(a, b, MinHour(a), Span(a));
    }
  }

  /** Bucket runs of two lists whose hourly buckets agree are equal. */
  lemma {:induction false} BucketsSame(a: seq<Doc>, b: seq<Doc>, lo: int, n: nat)
    requires forall h :: BucketAt(a, h) == BucketAt(b, h)
    ensures Buckets(a, lo, n) == Buckets(b, lo, n)
    decreases n
  {
    if n > 0 {
      BucketsSame(a, b, lo, n - 1);
    }
  }

  /** The hour range depends only on the multiset of documents. */
  lemma HourRangePermutation(a: seq<Doc>, b: seq<Doc>)
    requires |a| > 0 && multiset(a) == multiset(b)
    ensures |b| > 0 && MinHour(a) == MinHour(b) && MaxHour(a) == MaxHour(b)
  {
    assert a[0] in multiset(b);
    forall x | x in multiset(a) ensures exists j :: 0 <= j < |b| && b[j] == x {
      assert x in multiset(b);
    }
    forall x | x in multiset(b) ensures exists j :: 0 <= j < |a| && a[j] == x {
      assert x in multiset(a);
    }
    HoursAttained(a);
    HoursAttained(b);
    var i :| 0 <= i < |a| && HourOf(a[i].timestamp) == MinHour(a);
    var j :| 0 <= j < |b| && HourOf(b[j].timestamp) == MinHour(b);
    assert a[i] in multiset(a) && b[j] in multiset(b);
    var i' :| 0 <= i' < |a| && HourOf(a[i'].timestamp) == MaxHour(a);
    var j' :| 0 <= j' < |b| && HourOf(b[j'].timestamp) == MaxHour(b);
    assert a[i'] in multiset(a) && b[j'] in multiset(b);
  }

  /** The order of the input documents does not affect the buckets. */
  lemma AggregatePermutation(a: seq<Doc>, b: seq<Doc>)
    requires multiset(a) == multiset(b)
    ensures Aggregate(a) == Aggregate(b)
  {
    if |a| > 0 {
      HourRangePermutation(a, b);
    } else {
      assert |b| == |multiset(b)| == 0;
    }
    forall h ensures CountIn(a, h) == CountIn(b, h) {
      TotalPermutation(a, b, CountOf(h));
    }
    forall h, e: Emotion ensures SumIn(a, h, e) == SumIn(b, h, e) {
      TotalPermutation(a, b, SumOf(h, e));
    }
    AggregateSame(a, b);
  }

  /**
   * Documents that agree on timestamps and on every coerced value aggregate
   * alike: a missing column, a non-numeric cell and an explicit 0 are
   * interchangeable.
   */
  lemma CoercionInvariant(a: seq<Doc>, b: seq<Doc>)
    requires |a| == |b|
    requires forall k :: 0 <= k < |a| ==> a[k].timestamp == b[k].timestamp
    requires forall k, e: Emotion :: 0 <= k < |a| ==> Value(a[k], e) == Value(b[k], e)
    ensures Aggregate(a) == Aggregate(b)
  {
    if |a| > 0 {
      HoursAttained(a);
      HoursAttained(b);
      var i :| 0 <= i < |a| && HourOf(a[i].timestamp) == MinHour(a);
      var j :| 0 <= j < |b| && HourOf(b[j].timestamp) == MinHour(b);
      assert HourOf(b[i].timestamp) == MinHour(a) && HourOf(a[j].timestamp) == MinHour(b);
      var i' :| 0 <= i' < |a| && HourOf(a[i'].timestamp) == MaxHour(a);
      var j' :| 0 <= j' < |b| && HourOf(b[j'].timestamp) == MaxHour(b);
      assert HourOf(b[i'].timestamp) == MaxHour(a) && HourOf(a[j'].timestamp) == MaxHour(b);
    }
    forall h ensures CountIn(a, h) == CountIn(b, h) {
      TotalPointwise(a, b, CountOf(h));
    }
    forall h, e: Emotion ensures SumIn(a, h, e) == SumIn(b, h, e) {
      TotalPointwise(a, b, SumOf(h, e));
    }
    AggregateSame(a, b);
  }

  /** Every document's coerced values lie in [0, 1]. */
  predicate UnitValues(docs: seq<Doc>) {
    forall k, e: Emotion :: 0 <= k < |docs| ==> 0.0 <= Value(docs[k], e) <= 1.0
  }

  /** A ratio of a part to a positive whole lies in [0, 1]. */
  lemma RatioInUnit(part: real, whole: real, ratio: real)
    requires 0.0 < whole && 0.0 <= part <= whole && ratio * whole == part
    ensures 0.0 <= ratio <= 1.0
  {
    assert ratio == part / whole;
  }

  /** A mean of values in [0, 1] lies in [0, 1]. */
  lemma MeanInUnit(docs: seq<Doc>, h: int, e: Emotion)
    requires UnitValues(docs)
    ensures 0.0 <= MeanIn(docs, h, e) <= 1.0
  {
    SumBelowCount(docs, h, e);
    var c, m := CountIn(docs, h), MeanIn(docs, h, e);
    if c != 0.0 {
      MeanTimesCount(docs, h, e);
      RatioInUnit(SumIn(docs, h, e), c, m);
    }
  }

  /** With values in [0, 1], an hour's sum lies between 0 and its document count. */
  lemma SumBelowCount(docs: seq<Doc>, h: int, e: Emotion)
    requires UnitValues(docs)
    ensures 0.0 <= SumIn(docs, h, e) <= CountIn(docs, h)
  {
    forall k | 0 <= k < |docs| ensures 0.0 <= Weight(SumOf(h, e), docs[k]) <= Weight(CountOf(h), docs[k]) {
      assert 0.0 <= Value(docs[k], e) <= 1.0;
    }
    TotalMono(docs, SumOf(h, e), CountOf(h));
  }

  /** If every input value lies in [0, 1], so does every value of an hour's bucket. */
  lemma BucketInUnit(docs: seq<Doc>, h: int)
    requires UnitValues(docs)
    ensures Complete(BucketAt(docs, h).means) && InUnitRange(BucketAt(docs, h).means)
  {
    forall e: Emotion ensures 0.0 <= BucketAt(docs, h).means[e] <= 1.0 {
      MeanInUnit(docs, h, e);
    }
  }

  /** If every input value lies in [0, 1], so does every bucket value. */
  lemma AggregateInUnit(docs: seq<Doc>)
    requires UnitValues(docs)
    ensures forall k :: 0 <= k < |Aggregate(docs)| ==>
      Complete(Aggregate(docs)[k].means) && InUnitRange(Aggregate(docs)[k].means)
  {
    forall k | 0 <= k < |Aggregate(docs)|
      ensures Complete(Aggregate(docs)[k].means) && InUnitRange(Aggregate(docs)[k].means)
    {
      var b := BucketAt(docs, MinHour(docs) + k);
      BucketInUnit(docs, MinHour(docs) + k);
      AggregateAt(docs, k);
      assert Aggregate(docs)[k] == b;
    }
  }

  /**
   * Appending a document adds one to the count of its hour and its coerced
   * values to that hour's sums, and leaves other hours alone; a document
   * present twice is counted twice.
   */
  lemma AppendDoc(docs: seq<Doc>, d: Doc, h: int, e: Emotion)
    ensures CountIn(docs + [d], h) == CountIn(docs, h) + (if HourOf(d.timestamp) == h then 1.0 else 0.0)
    ensures SumIn(docs + [d], h, e) == SumIn(docs, h, e) + (if HourOf(d.timestamp) == h then Value(d, e) else 0.0)
  {
    TotalAppend(docs, [d], CountOf(h));
    TotalAppend(docs, [d], SumOf(h, e));
  }
}
