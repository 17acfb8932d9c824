/**
 * Worked cases of the hourly aggregation on small document lists.
 */
module AggregatorExamples {
  import opened Emotions
  import opened Aggregator

  /** Bucket `b` holds `v` for category `e`. */
  predicate Shows(b: Bucket, e: Emotion, v: real) {
    e in b.means && b.means[e] == v
  }

  /** Bucket `b` reads 0 in every category. */
  predicate Blank(b: Bucket) {
    Complete(b.means) && forall e: Emotion :: b.means[e] == 0.0
  }

  /** Two documents in the same hour give one bucket holding their mean. */
  lemma SameHourMean(t0: int, t1: int, x: real, y: real)
    requires HourOf(t0) == HourOf(t1)
    ensures |Aggregate([Doc(t0, map[Joy := Num(x)]), Doc(t1, map[Joy := Num(y)])])| == 1
    ensures Shows(Aggregate([Doc(t0, map[Joy := Num(x)]), Doc(t1, map[Joy := Num(y)])])[0], Joy, (x + y) / 2.0)
    ensures Shows(Aggregate([Doc(t0, map[Joy := Num(x)]), Doc(t1, map[Joy := Num(y)])])[0], Fear, 0.0)
  {
    var docs := [Doc(t0, map[Joy := Num(x)]), Doc(t1, map[Joy := Num(y)])];
    var h := HourOf(t0);
    assert docs[1..] == [docs[1]];
    assert MinHour(docs) == h && MaxHour(docs) == h;
    AggregateLength(docs);
    AggregateAt(docs, 0);
    TotalTwo(docs[0], docs[1], CountOf(h));
    TotalTwo(docs[0], docs[1], SumOf(h, Joy));
    TotalTwo(docs[0], docs[1], SumOf(h, Fear));
    assert CountIn(docs, h) == 2.0;
    assert SumIn(docs, h, Joy) == x + y;
    assert SumIn(docs, h, Fear) == 0.0;
  }

  /** A document present twice weighs twice in its hour's mean. */
  lemma DuplicateWeighsTwice(t0: int, t1: int, x: real, y: real)
    requires HourOf(t0) == HourOf(t1)
    ensures |Aggregate([Doc(t0, map[Joy := Num(x)]), Doc(t1, map[Joy := Num(y)]), Doc(t0, map[Joy := Num(x)])])| == 1
    ensures Shows(Aggregate([Doc(t0, map[Joy := Num(x)]), Doc(t1, map[Joy := Num(y)]),
                             Doc(t0, map[Joy := Num(x)])])[0], Joy, (2.0 * x + y) / 3.0)
  {
    var d := Doc(t0, map[Joy := Num(x)]);
    var pair := [d, Doc(t1, map[Joy := Num(y)])];
    var h := HourOf(t0);
    TotalTwo(pair[0], pair[1], CountOf(h));
    TotalTwo(pair[0], pair[1], SumOf(h, Joy));
    assert CountIn(pair, h) == 2.0 && SumIn(pair, h, Joy) == x + y;
    var docs := pair + [d];
    AppendDoc(pair, d, h, Joy);
    assert MinHour(docs) == h && MaxHour(docs) == h by {
      HoursAttained(docs);
      assert forall k :: 0 <= k < |docs| ==> HourOf(docs[k].timestamp) == h;
    }
    assert CountIn(docs, h) == 3.0 && SumIn(docs, h, Joy) == 2.0 * x + y;
    assert MeanIn(docs, h, Joy) == (2.0 * x + y) / 3.0;
    AggregateLength(docs);
    AggregateAt(docs, 0);
    assert docs == [Doc(t0, map[Joy := Num(x)]), Doc(t1, map[Joy := Num(y)]), Doc(t0, map[Joy := Num(x)])];
  }

  /** A missing column counts as 0 in the mean. */
  lemma MissingIsZero(t0: int, t1: int, x: real)
    requires HourOf(t0) == HourOf(t1)
    ensures |Aggregate([Doc(t0, map[Joy := Num(x)]), Doc(t1, map[])])| == 1
    ensures Shows(Aggregate([Doc(t0, map[Joy := Num(x)]), Doc(t1, map[])])[0], Joy, x / 2.0)
  {
    var a := [Doc(t0, map[Joy := Num(x)]), Doc(t1, map[])];
    var h := HourOf(t0);
    assert a[1..] == [a[1]];
    assert MinHour(a) == h && MaxHour(a) == h;
    AggregateLength(a);
    AggregateAt(a, 0);
    TotalTwo(a[0], a[1], CountOf(h));
    TotalTwo(a[0], a[1], SumOf(h, Joy));
    assert CountIn(a, h) == 2.0 && SumIn(a, h, Joy) == x;
  }

  /** A non-numeric cell aggregates exactly like a missing column. */
  lemma NonNumericIsMissing(t0: int, t1: int, x: real)
    ensures Aggregate([Doc(t0, map[Joy := Num(x)]), Doc(t1, map[Joy := NonNumeric])])
         == Aggregate([Doc(t0, map[Joy := Num(x)]), Doc(t1, map[])])
  {
    var a := [Doc(t0, map[Joy := Num(x)]), Doc(t1, map[])];
    var b := [Doc(t0, map[Joy := Num(x)]), Doc(t1, map[Joy := NonNumeric])];
    forall k, e: Emotion | 0 <= k < 2 ensures Value(a[k], e) == Value(b[k], e) {
      if k == 1 {
        assert Value(a[k], e) == 0.0 == Value(b[k], e);
      }
    }
    CoercionInvariant(b, a);
  }

  /**
   * Documents three hours apart give four buckets; the two hours between
   * them have no documents and read zero in every category.
   */
  lemma GapHoursReadZero()
    ensures |Aggregate([Doc(0, map[Anger := Num(1.0)]), Doc(3 * 3600 + 5, map[Anger := Num(0.5)])])| == 4
    ensures Blank(Aggregate([Doc(0, map[Anger := Num(1.0)]), Doc(3 * 3600 + 5, map[Anger := Num(0.5)])])[1])
    ensures Blank(Aggregate([Doc(0, map[Anger := Num(1.0)]), Doc(3 * 3600 + 5, map[Anger := Num(0.5)])])[2])
  {
    var docs := [Doc(0, map[Anger := Num(1.0)]), Doc(3 * 3600 + 5, map[Anger := Num(0.5)])];
    assert HourOf(docs[1].timestamp) == 3;
    assert MinHour(docs) == 0 && MaxHour(docs) == 3;
    AggregateLength(docs);
    assert forall j :: 0 <= j < |docs| ==> HourOf(docs[j].timestamp) == 0 || HourOf(docs[j].timestamp) == 3;
    EmptyHourAllZero(docs, 1);
    EmptyHourAllZero(docs, 2);
  }

  /**
   * In the same input the buckets keep stepping one hour at a time across
   * the gap, and the last one holds the later document's value.
   */
  lemma GapHoursLastBucket()
    ensures Aggregate([Doc(0, map[Anger := Num(1.0)]), Doc(3 * 3600 + 5, map[Anger := Num(0.5)])])[2].start == 7200
    ensures Shows(Aggregate([Doc(0, map[Anger := Num(1.0)]), Doc(3 * 3600 + 5, map[Anger := Num(0.5)])])[3], Anger, 0.5)
  {
    var docs := [Doc(0, map[Anger := Num(1.0)]), Doc(3 * 3600 + 5, map[Anger := Num(0.5)])];
    assert HourOf(docs[1].timestamp) == 3;
    assert MinHour(docs) == 0 && MaxHour(docs) == 3;
    AggregateLength(docs);
    AggregateAt(docs, 2);
    AggregateAt(docs, 3);
    LaterAloneMean(docs[0], docs[1], 3, Anger);
  }

  /** Of two documents, when only the second lies in hour `h`, that hour's mean is its value. */
  lemma LaterAloneMean(a: Doc, b: Doc, h: int, e: Emotion)
    requires HourOf(a.timestamp) != h && HourOf(b.timestamp) == h
    ensures MeanIn([a, b], h, e) == Value(b, e)
  {
    TotalTwo(a, b, CountOf(h));
    TotalTwo(a, b, SumOf(h, e));
  }

  /** No documents, no buckets. */
  lemma EmptyInput()
    ensures Aggregate([]) == []
  {
  }
}
