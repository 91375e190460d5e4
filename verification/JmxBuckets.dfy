/**
 Aggregation of JVM samples into time buckets. Numbers are reals, so the averages here carry no
 rounding; a metric that is null is None.
 */
module JmxBuckets {
  import opened Collections
  import opened FirstOccurrence

  /** `ms` is None when the time stamp cannot be parsed; `values` holds the nine metrics. */
  datatype Sample = Sample(ms: Option<int>, pid: int, values: seq<Option<real>>)

  datatype Bucket = Bucket(start: int, end: int, pid: int, sampleCount: nat, averages: seq<Option<real>>)

  const METRICS := 9
  const DEFAULT_POINTS := 60

  function IntervalMs(intervalSec: real): (n: int)
    ensures n >= 1000 && n % 1000 == 0
  {
    Max(1, intervalSec.Floor) * 1000
  }

  function StartOf(ms: int, interval: int): int
    requires interval > 0
  {
    ms / interval * interval
  }

  // The plain meaning

  /** The bucket starts of the samples with a valid time, in sample order. */
  function StartsOf(raw: seq<Sample>, interval: int): seq<int>
    requires interval > 0
  {
    if raw == [] then []
    else
      var front, x := StartsOf(raw[..|raw| - 1], interval), raw[|raw| - 1];
      if x.ms.Some? then front + [StartOf(x.ms.value, interval)] else front
  }

  predicate BelongsTo(x: Sample, start: int, interval: int)
    requires interval > 0
  {
    x.ms.Some? && StartOf(x.ms.value, interval) == start
  }

  /** The samples of one bucket, in sample order. */
  function ItemsIn(raw: seq<Sample>, start: int, interval: int): seq<Sample>
    requires interval > 0
  {
    if raw == [] then []
    else
      var front, x := ItemsIn(raw[..|raw| - 1], start, interval), raw[|raw| - 1];
      if BelongsTo(x, start, interval) then front + [x] else front
  }

  function Value(x: Sample, m: nat): Option<real> {
    if m < |x.values| then x.values[m] else None
  }

  function Present(items: seq<Sample>, m: nat): (n: nat)
    ensures n <= |items|
  {
    if items == [] then 0
    else Present(items[..|items| - 1], m) + if Value(items[|items| - 1], m).Some? then 1 else 0
  }

  function Sum(items: seq<Sample>, m: nat): real {
    if items == [] then 0.0 else Sum(items[..|items| - 1], m) + Value(items[|items| - 1], m).GetOr(0.0)
  }

  function Average(items: seq<Sample>, m: nat): Option<real> {
    if Present(items, m) == 0 then None else Some(Sum(items, m) / Present(items, m) as real)
  }

  function MakeBucket(start: int, interval: int, items: seq<Sample>): Bucket
    requires items != []
  {
    Bucket(start, start + interval, items[|items| - 1].pid, |items|, seq(METRICS, m requires 0 <= m => Average(items, m)))
  }

  function Itself(x: int): int {
    x
  }

  function Insert(x: int, s: seq<int>): seq<int> {
    if s == [] || s[|s| - 1] <= x then s + [x] else Insert(x, s[..|s| - 1]) + [s[|s| - 1]]
  }

  function Sort(s: seq<int>): seq<int> {
    if s == [] then [] else Insert(s[|s| - 1], Sort(s[..|s| - 1]))
  }

  function BucketStarts(raw: seq<Sample>, interval: int): seq<int>
    requires interval > 0
  {
    Sort(Dedup(StartsOf(raw, interval), Itself))
  }

  function BucketsOf(raw: seq<Sample>, interval: int): (r: seq<Bucket>)
    requires interval > 0
    ensures |r| == |BucketStarts(raw, interval)|
  {
    var starts := BucketStarts(raw, interval);
    StartsHaveItems(raw, interval);
    seq(|starts|, k requires 0 <= k < |starts| =>
      MakeBucket(starts[k], interval, ItemsIn(raw, starts[k], interval)))
  }

  // Sorting and membership

  ghost predicate Increasing(s: seq<int>) {
    forall i, j :: 0 <= i < j < |s| ==> s[i] < s[j]
  }

  lemma {:induction false} InsertMembers(x: int, s: seq<int>)
    ensures |Insert(x, s)| == |s| + 1
    ensures forall y :: y in Insert(x, s) <==> y == x || y in s
  {
    if s != [] && s[|s| - 1] > x {
      InsertMembers(x, s[..|s| - 1]);
      assert s == s[..|s| - 1] + [s[|s| - 1]];
    }
  }

  lemma {:induction false} InsertIncreasing(x: int, s: seq<int>)
    requires Increasing(s) && x !in s
    ensures Increasing(Insert(x, s))
  {
    if s != [] && s[|s| - 1] > x {
      var n := |s| - 1;
      var front := Insert(x, s[..n]);
      assert forall y :: y in s[..n] ==> y in s && y < s[n];
      InsertIncreasing(x, s[..n]);
      InsertMembers(x, s[..n]);
      assert forall i :: 0 <= i < |front| ==> front[i] in front;
    } else if s != [] {
      assert s[|s| - 1] in s;
    }
  }

  lemma {:induction false} SortedDistinct(s: seq<int>)
    requires NoRepeats(s, Itself)
    ensures Increasing(Sort(s)) && |Sort(s)| == |s|
    ensures forall y :: y in Sort(s) <==> y in KeysOf(s, Itself)
  {
    if s != [] {
      var n := |s| - 1;
      SortedDistinct(s[..n]);
      InsertMembers(s[n], Sort(s[..n]));
      InsertIncreasing(s[n], Sort(s[..n]));
    }
  }

  lemma {:induction false} StartsAreKeys(raw: seq<Sample>, interval: int, b: int)
    requires interval > 0
    ensures b in KeysOf(StartsOf(raw, interval), Itself) <==> ItemsIn(raw, b, interval) != []
  {
    if raw != [] {
      var front, x := raw[..|raw| - 1], raw[|raw| - 1];
      StartsAreKeys(front, interval, b);
      if x.ms.Some? {
        DedupSnoc(StartsOf(front, interval), StartOf(x.ms.value, interval), Itself);
      }
    }
  }

  /** The buckets are the starts that have samples, in strictly increasing order. */
  lemma StartsHaveItems(raw: seq<Sample>, interval: int)
    requires interval > 0
    ensures Increasing(BucketStarts(raw, interval))
    ensures forall b :: b in BucketStarts(raw, interval) <==> ItemsIn(raw, b, interval) != []
    ensures forall k :: 0 <= k < |BucketStarts(raw, interval)| ==> ItemsIn(raw, BucketStarts(raw, interval)[k], interval) != []
  {
    var starts := StartsOf(raw, interval);
    DedupKeepsEachKeyOnce(starts, Itself);
    SortedDistinct(Dedup(starts, Itself));
    forall b: int
      ensures b in BucketStarts(raw, interval) <==> ItemsIn(raw, b, interval) != []
    {
      StartsAreKeys(raw, interval, b);
    }
    var sorted := BucketStarts(raw, interval);
    forall k | 0 <= k < |sorted|
      ensures ItemsIn(raw, sorted[k], interval) != []
    {
      assert sorted[k] in sorted;
    }
  }

  // The code

  /** Groups in a loop over the samples, then sorts the groups and summarises each. */
  method GetAggregatedJmxHistory(raw: seq<Sample>, intervalSec: real, limit: Option<int>) returns (result: seq<Bucket>)
    ensures result == SliceFrom(BucketsOf(raw, IntervalMs(intervalSec)), -limit.GetOr(DEFAULT_POINTS))
  {
    var interval := IntervalMs(intervalSec);
    var order: seq<int>, buckets: map<int, seq<Sample>> := [], map[];
    for i := 0 to |raw|
      invariant Grouped(raw[..i], interval, order, buckets)
    {
      GroupedStep(raw[..i], raw[i], interval, order, buckets);
      assert raw[..i + 1] == raw[..i] + [raw[i]];
      if raw[i].ms.Some? {
        var start := StartOf(raw[i].ms.value, interval);
        var list := if start in buckets then buckets[start] else [];
        order := if start in buckets then order else order + [start];
        buckets := buckets[start := list + [raw[i]]];
      }
    }
    assert raw[..|raw|] == raw;
    result := Summaries(raw, interval, order, buckets);
    result := SliceFrom(result, -limit.GetOr(DEFAULT_POINTS));
  }

  ghost predicate Grouped(done: seq<Sample>, interval: int, order: seq<int>, buckets: map<int, seq<Sample>>)
    requires interval > 0
  {
    && order == Dedup(StartsOf(done, interval), Itself)
    && (forall b :: b in buckets <==> b in KeysOf(StartsOf(done, interval), Itself))
    && (forall b :: b in buckets ==> buckets[b] == ItemsIn(done, b, interval))
  }

  lemma GroupedStep(done: seq<Sample>, x: Sample, interval: int, order: seq<int>, buckets: map<int, seq<Sample>>)
    requires interval > 0 && Grouped(done, interval, order, buckets)
    ensures x.ms.None? ==> Grouped(done + [x], interval, order, buckets)
    ensures x.ms.Some? ==>
              var start := StartOf(x.ms.value, interval);
              var list := if start in buckets then buckets[start] else [];
              Grouped(done + [x], interval, if start in buckets then order else order + [start],
                      buckets[start := list + [x]])
  {
    assert (done + [x])[..|done|] == done;
    if x.ms.Some? {
      var start := StartOf(x.ms.value, interval);
      DedupSnoc(StartsOf(done, interval), start, Itself);
      StartsAreKeys(done, interval, start);
    }
  }

  method Summaries(ghost raw: seq<Sample>, interval: int, order: seq<int>, buckets: map<int, seq<Sample>>)
    returns (result: seq<Bucket>)
    requires interval > 0 && Grouped(raw, interval, order, buckets)
    ensures result == BucketsOf(raw, interval)
  {
    result := [];
    var starts := Sort(order);
    StartsHaveItems(raw, interval);
    for k := 0 to |starts|
      invariant |result| == k
      invariant forall i :: 0 <= i < k ==> result[i] == BucketsOf(raw, interval)[i]
    {
      StartsAreKeys(raw, interval, starts[k]);
      result := result + [MakeBucket(starts[k], interval, buckets[starts[k]])];
    }
  }
}
