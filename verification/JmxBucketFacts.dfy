/** The buckets partition the samples with a valid time, and their averages keep the totals. */
module JmxBucketFacts {
  import opened Collections
  import opened FirstOccurrence
  import opened JmxBuckets

  // Each sample in one bucket

  lemma {:induction false} ItemsBelong(raw: seq<Sample>, b: int, interval: int)
    requires interval > 0
    ensures forall x :: x in ItemsIn(raw, b, interval) <==> x in raw && BelongsTo(x, b, interval)
  {
    if raw != [] {
      var n := |raw| - 1;
      ItemsBelong(raw[..n], b, interval);
      assert raw == raw[..n] + [raw[n]];
    }
  }

  lemma StartOfBounds(ms: int, interval: int)
    requires interval > 0
    ensures StartOf(ms, interval) <= ms < StartOf(ms, interval) + interval
    ensures StartOf(ms, interval) % interval == 0
  {
    MultiplesHaveNoRest(ms / interval, interval);
  }

  lemma MultiplesGrow(a: int, b: int, d: int)
    requires d > 0 && a < b
    ensures a * d + d <= b * d
  {
    assert (a + 1) * d == a * d + d;
    assert (b - (a + 1)) * d >= 0;
  }

  /** The quotient is the only multiple that leaves a remainder within the divisor. */
  lemma QuotientIsUnique(q: int, d: int, x: int)
    requires d > 0 && q * d <= x < q * d + d
    ensures x / d == q
  {
    var k := x / d;
    assert x == k * d + x % d;
    if k < q {
      MultiplesGrow(k, q, d);
    } else if k > q {
      MultiplesGrow(q, k, d);
    }
  }

  lemma MultiplesHaveNoRest(q: int, d: int)
    requires d > 0
    ensures q * d % d == 0
  {
    QuotientIsUnique(q, d, q * d);
  }

  lemma OnlyMultipleBelow(b: int, ms: int, interval: int)
    requires interval > 0 && b % interval == 0 && b <= ms < b + interval
    ensures StartOf(ms, interval) == b
  {
    QuotientIsUnique(b / interval, interval, ms);
  }

  /** Bucket starts are multiples of the interval, strictly increasing, and buckets do not overlap. */
  lemma BucketsAreApart(raw: seq<Sample>, interval: int, k: nat)
    requires interval > 0 && k < |BucketsOf(raw, interval)|
    ensures var bs := BucketsOf(raw, interval);
            && bs[k].start % interval == 0 && bs[k].end == bs[k].start + interval
            && bs[k].sampleCount == |ItemsIn(raw, bs[k].start, interval)| > 0
            && forall j :: 0 <= j < k ==> bs[j].start < bs[k].start
  {
    StartsHaveItems(raw, interval);
    var b := BucketStarts(raw, interval)[k];
    var items := ItemsIn(raw, b, interval);
    ItemsBelong(raw, b, interval);
    assert items[0] in items;
    StartOfBounds(items[0].ms.value, interval);
  }

  /** Every sample with a valid time lies in exactly one of the half-open buckets, and is one of its items. */
  lemma SampleIsInOneBucket(raw: seq<Sample>, interval: int, i: nat) returns (k: nat)
    requires interval > 0 && i < |raw| && raw[i].ms.Some?
    ensures var bs, ms := BucketsOf(raw, interval), raw[i].ms.value;
            && k < |bs| && bs[k].start <= ms < bs[k].end
            && raw[i] in ItemsIn(raw, bs[k].start, interval)
            && forall j :: 0 <= j < |bs| && bs[j].start <= ms < bs[j].end ==> j == k
  {
    var bs, ms, starts := BucketsOf(raw, interval), raw[i].ms.value, BucketStarts(raw, interval);
    var b := StartOf(ms, interval);
    StartsHaveItems(raw, interval);
    ItemsBelong(raw, b, interval);
    StartOfBounds(ms, interval);
    assert raw[i] in ItemsIn(raw, b, interval);
    assert b in starts;
    k :| 0 <= k < |starts| && starts[k] == b;
    forall j | 0 <= j < |bs| && bs[j].start <= ms < bs[j].end
      ensures j == k
    {
      BucketsAreApart(raw, interval, j);
      OnlyMultipleBelow(bs[j].start, ms, interval);
    }
  }

  /** What a bucket reports: the averages of its samples, and the process id of the last of them. */
  lemma BucketReports(raw: seq<Sample>, interval: int, k: nat) returns (i: nat)
    requires interval > 0 && k < |BucketsOf(raw, interval)|
    ensures var b := BucketsOf(raw, interval)[k];
            var items := ItemsIn(raw, b.start, interval);
            && |b.averages| == METRICS && (forall m :: 0 <= m < METRICS ==> b.averages[m] == Average(items, m))
            && i < |raw| && b.pid == raw[i].pid && BelongsTo(raw[i], b.start, interval)
            && forall j :: i < j < |raw| ==> !BelongsTo(raw[j], b.start, interval)
  {
    StartsHaveItems(raw, interval);
    i := LastItem(raw, BucketStarts(raw, interval)[k], interval);
  }

  /** The last item of a bucket is the last sample that falls into it. */
  lemma {:induction false} LastItem(raw: seq<Sample>, b: int, interval: int) returns (i: nat)
    requires interval > 0 && ItemsIn(raw, b, interval) != []
    ensures var items := ItemsIn(raw, b, interval);
            i < |raw| && items[|items| - 1] == raw[i] && BelongsTo(raw[i], b, interval)
    ensures forall j :: i < j < |raw| ==> !BelongsTo(raw[j], b, interval)
  {
    var n := |raw| - 1;
    if BelongsTo(raw[n], b, interval) {
      i := n;
    } else {
      i := LastItem(raw[..n], b, interval);
      assert forall j :: 0 <= j < n ==> raw[..n][j] == raw[j];
    }
  }

  // Totals

  function Valid(raw: seq<Sample>): seq<Sample> {
    if raw == [] then []
    else Valid(raw[..|raw| - 1]) + if raw[|raw| - 1].ms.Some? then [raw[|raw| - 1]] else []
  }

  function Weigh(items: seq<Sample>, w: Sample -> real): real {
    if items == [] then 0.0 else Weigh(items[..|items| - 1], w) + w(items[|items| - 1])
  }

  function WeighBuckets(raw: seq<Sample>, starts: seq<int>, interval: int, w: Sample -> real): real
    requires interval > 0
  {
    if starts == [] then 0.0
    else
      var n := |starts| - 1;
      WeighBuckets(raw, starts[..n], interval, w) + Weigh(ItemsIn(raw, starts[n], interval), w)
  }

  lemma WeighSnoc(items: seq<Sample>, x: Sample, w: Sample -> real)
    ensures Weigh(items + [x], w) == Weigh(items, w) + w(x)
  {
    assert (items + [x])[..|items|] == items;
  }

  lemma {:induction false} NoSamplesWeighNothing(starts: seq<int>, interval: int, w: Sample -> real)
    requires interval > 0
    ensures WeighBuckets([], starts, interval, w) == 0.0
  {
    if starts != [] {
      NoSamplesWeighNothing(starts[..|starts| - 1], interval, w);
    }
  }

  lemma ItemsInSnoc(raw: seq<Sample>, x: Sample, b: int, interval: int)
    requires interval > 0
    ensures ItemsIn(raw + [x], b, interval) ==
            if BelongsTo(x, b, interval) then ItemsIn(raw, b, interval) + [x] else ItemsIn(raw, b, interval)
  {
    assert (raw + [x])[..|raw|] == raw;
  }

  /** One more sample adds its weight to the one bucket it belongs to. */
  lemma {:induction false} OneMoreSample(raw: seq<Sample>, x: Sample, starts: seq<int>, interval: int, w: Sample -> real)
    requires interval > 0 && Increasing(starts)
    ensures WeighBuckets(raw + [x], starts, interval, w) == WeighBuckets(raw, starts, interval, w) +
                                                            if x.ms.Some? && StartOf(x.ms.value, interval) in starts then w(x) else 0.0
  {
    if starts != [] {
      var n := |starts| - 1;
      OneMoreSample(raw, x, starts[..n], interval, w);
      ItemsInSnoc(raw, x, starts[n], interval);
      WeighSnoc(ItemsIn(raw, starts[n], interval), x, w);
      assert starts == starts[..n] + [starts[n]];
      assert forall b :: b in starts[..n] ==> b < starts[n];
    }
  }

  ghost predicate Covers(starts: seq<int>, raw: seq<Sample>, interval: int)
    requires interval > 0
  {
    forall x :: x in raw && x.ms.Some? ==> StartOf(x.ms.value, interval) in starts
  }

  lemma {:induction false} CoveringBucketsKeepWeight(raw: seq<Sample>, starts: seq<int>, interval: int, w: Sample -> real)
    requires interval > 0 && Increasing(starts) && Covers(starts, raw, interval)
    ensures WeighBuckets(raw, starts, interval, w) == Weigh(Valid(raw), w)
  {
    if raw == [] {
      NoSamplesWeighNothing(starts, interval, w);
    } else {
      var front, x := raw[..|raw| - 1], raw[|raw| - 1];
      assert raw == front + [x] && x in raw;
      assert forall y :: y in front ==> y in raw;
      CoveringBucketsKeepWeight(front, starts, interval, w);
      OneMoreSample(front, x, starts, interval, w);
      WeighSnoc(Valid(front), x, w);
      assert x.ms.None? ==> Valid(raw) == Valid(front);
    }
  }

  /** However samples are weighed, the buckets together weigh what the valid samples weigh. */
  lemma BucketsKeepWeight(raw: seq<Sample>, interval: int, w: Sample -> real)
    requires interval > 0
    ensures WeighBuckets(raw, BucketStarts(raw, interval), interval, w) == Weigh(Valid(raw), w)
  {
    StartsHaveItems(raw, interval);
    forall x | x in raw && x.ms.Some?
      ensures StartOf(x.ms.value, interval) in BucketStarts(raw, interval)
    {
      ItemsBelong(raw, StartOf(x.ms.value, interval), interval);
    }
    CoveringBucketsKeepWeight(raw, BucketStarts(raw, interval), interval, w);
  }

  function One(x: Sample): real {
    1.0
  }

  lemma {:induction false} WeighOne(items: seq<Sample>)
    ensures Weigh(items, One) == |items| as real
  {
    if items != [] {
      WeighOne(items[..|items| - 1]);
    }
  }

  function CountSum(bs: seq<Bucket>): nat {
    if bs == [] then 0 else CountSum(bs[..|bs| - 1]) + bs[|bs| - 1].sampleCount
  }

  lemma {:induction false} CountsWeighOne(raw: seq<Sample>, interval: int, bs: seq<Bucket>, starts: seq<int>)
    requires interval > 0 && |bs| == |starts|
    requires forall k :: 0 <= k < |bs| ==> bs[k].sampleCount == |ItemsIn(raw, starts[k], interval)|
    ensures CountSum(bs) as real == WeighBuckets(raw, starts, interval, One)
  {
    if bs != [] {
      var n := |bs| - 1;
      CountsWeighOne(raw, interval, bs[..n], starts[..n]);
      WeighOne(ItemsIn(raw, starts[n], interval));
    }
  }

  /** The sample counts add up to the number of samples with a valid time. */
  lemma CountsSumToValid(raw: seq<Sample>, interval: int)
    requires interval > 0
    ensures CountSum(BucketsOf(raw, interval)) == |Valid(raw)|
  {
    var bs, starts := BucketsOf(raw, interval), BucketStarts(raw, interval);
    StartsHaveItems(raw, interval);
    CountsWeighOne(raw, interval, bs, starts);
    BucketsKeepWeight(raw, interval, One);
    WeighOne(Valid(raw));
  }

  function MetricOf(m: nat): Sample -> real {
    x => Value(x, m).GetOr(0.0)
  }

  lemma {:induction false} WeighMetric(items: seq<Sample>, m: nat)
    ensures Weigh(items, MetricOf(m)) == Sum(items, m)
  {
    if items != [] {
      WeighMetric(items[..|items| - 1], m);
    }
  }

  lemma {:induction false} NothingPresent(items: seq<Sample>, m: nat)
    requires Present(items, m) == 0
    ensures Sum(items, m) == 0.0
  {
    if items != [] {
      NothingPresent(items[..|items| - 1], m);
    }
  }

  function Repeated(x: real, n: nat): real {
    if n == 0 then 0.0 else Repeated(x, n - 1) + x
  }

  lemma {:induction false} RepeatedIsProduct(x: real, n: nat)
    ensures Repeated(x, n) == x * n as real
  {
    if n > 0 {
      RepeatedIsProduct(x, n - 1);
    }
  }

  /** The average, once for each value, is their sum; there is none exactly when there are no values. */
  lemma AverageTimesCount(items: seq<Sample>, m: nat)
    ensures Average(items, m) == None <==> Present(items, m) == 0
    ensures Repeated(Average(items, m).GetOr(0.0), Present(items, m)) == Sum(items, m)
  {
    RepeatedIsProduct(Average(items, m).GetOr(0.0), Present(items, m));
    if Present(items, m) == 0 {
      NothingPresent(items, m);
    }
  }

  /** The averages of one metric, each once for each of its values, added up. */
  function AveragedTotal(raw: seq<Sample>, starts: seq<int>, interval: int, m: nat): real
    requires interval > 0
  {
    if starts == [] then 0.0
    else
      var n := |starts| - 1;
      var items := ItemsIn(raw, starts[n], interval);
      AveragedTotal(raw, starts[..n], interval, m) + Repeated(Average(items, m).GetOr(0.0), Present(items, m))
  }

  lemma {:induction false} AveragedTotalWeighs(raw: seq<Sample>, starts: seq<int>, interval: int, m: nat)
    requires interval > 0
    ensures AveragedTotal(raw, starts, interval, m) == WeighBuckets(raw, starts, interval, MetricOf(m))
  {
    if starts != [] {
      var n := |starts| - 1;
      AveragedTotalWeighs(raw, starts[..n], interval, m);
      AverageTimesCount(ItemsIn(raw, starts[n], interval), m);
      WeighMetric(ItemsIn(raw, starts[n], interval), m);
    }
  }

  /** No bucketing loses or doubles a value: the averages weighted by their counts keep each metric's total. */
  lemma AveragesKeepTotals(raw: seq<Sample>, interval: int, m: nat)
    requires interval > 0
    ensures AveragedTotal(raw, BucketStarts(raw, interval), interval, m) == Sum(Valid(raw), m)
  {
    AveragedTotalWeighs(raw, BucketStarts(raw, interval), interval, m);
    BucketsKeepWeight(raw, interval, MetricOf(m));
    WeighMetric(Valid(raw), m);
  }

  /** No limit means 60 buckets; a positive one keeps the last, zero all, a negative one drops from the front. */
  lemma PointsReturned(bs: seq<Bucket>, limit: Option<int>)
    ensures var result := SliceFrom(bs, -limit.GetOr(DEFAULT_POINTS));
            match limit
            case None => result == LastN(bs, Min(60, |bs|))
            case Some(n) =>
              if n > 0 then result == LastN(bs, Min(n, |bs|))
              else if n == 0 then result == bs
              else result == bs[Min(-n, |bs|)..]
  {
  }

  /** The width of a bucket is the whole seconds asked for, but at least one. */
  lemma IntervalIs(intervalSec: real)
    ensures intervalSec < 2.0 ==> IntervalMs(intervalSec) == 1000
    ensures intervalSec >= 1.0 ==>
              IntervalMs(intervalSec) as real <= 1000.0 * intervalSec < (IntervalMs(intervalSec) + 1000) as real
  {
    assert intervalSec.Floor as real <= intervalSec < (intervalSec.Floor + 1) as real;
  }

  // What an average says

  /** The samples that have a value of the metric. */
  function WithValue(items: seq<Sample>, m: nat): set<nat> {
    set i: nat | i < |items| && Value(items[i], m).Some?
  }

  lemma {:induction false} PresentIsCount(items: seq<Sample>, m: nat)
    ensures Present(items, m) == |WithValue(items, m)|
  {
    if items != [] {
      var n := |items| - 1;
      PresentIsCount(items[..n], m);
      var front := WithValue(items[..n], m);
      assert WithValue(items, m) == if Value(items[n], m).Some? then front + {n} else front;
      assert n !in front;
    } else {
      assert WithValue(items, m) == {};
    }
  }

  predicate ValuesWithin(items: seq<Sample>, m: nat, low: real, high: real) {
    forall i :: 0 <= i < |items| && Value(items[i], m).Some? ==> low <= Value(items[i], m).value <= high
  }

  lemma {:induction false} SumIsWithin(items: seq<Sample>, m: nat, low: real, high: real)
    requires ValuesWithin(items, m, low, high)
    ensures Repeated(low, Present(items, m)) <= Sum(items, m) <= Repeated(high, Present(items, m))
  {
    if items != [] {
      var n := |items| - 1;
      assert forall i :: 0 <= i < n ==> items[..n][i] == items[i];
      SumIsWithin(items[..n], m, low, high);
    }
  }

  /**
   There is an average exactly when some sample has a value, and it lies between any bounds that all
   values keep: samples without a value do not pull it down.
   */
  lemma AverageIsWithin(items: seq<Sample>, m: nat, low: real, high: real)
    requires ValuesWithin(items, m, low, high)
    ensures Average(items, m).Some? <==> WithValue(items, m) != {}
    ensures Average(items, m).Some? ==> low <= Average(items, m).value <= high
  {
    PresentIsCount(items, m);
    SumIsWithin(items, m, low, high);
    if Average(items, m).Some? {
      QuotientIsWithin(Sum(items, m), Present(items, m), low, high);
    }
  }

  lemma QuotientIsWithin(sum: real, n: nat, low: real, high: real)
    requires n > 0 && Repeated(low, n) <= sum <= Repeated(high, n)
    ensures low <= sum / n as real <= high
  {
    RepeatedIsProduct(low, n);
    RepeatedIsProduct(high, n);
    DivisionKeepsBounds(sum, n as real, low, high);
  }

  lemma DivisionKeepsBounds(sum: real, d: real, low: real, high: real)
    requires d > 0.0 && low * d <= sum <= high * d
    ensures low <= sum / d <= high
  {
  }
}
