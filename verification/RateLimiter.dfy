/**
 The request limiter of the log endpoints: per scope and identity it stores only the accepted
 times of the last window, and the whole table is dropped when it grows too large.
 */
module RateLimiter {
  import opened Collections

  datatype Request = Request(scope: string, identity: string, maxRequests: int, now: int)

  type Table = map<string, seq<int>>

  const WINDOW_MS := 1000
  const MAX_KEYS := 10000

  function Key(scope: string, identity: string): string {
    scope + ":" + identity
  }

  function KeyOf(r: Request): string {
    Key(r.scope, r.identity)
  }

  /** Scopes are fixed words without a colon, so keys tell scopes and identities apart. */
  lemma KeysAreDistinct(s: string, i: string, s': string, i': string)
    requires ':' !in s && ':' !in s' && Key(s, i) == Key(s', i')
    ensures s == s' && i == i'
  {
    var k := Key(s, i);
    assert k[|s|] == ':' && k[|s'|] == ':';
    assert forall j :: 0 <= j < |s| ==> k[j] == s[j] && s[j] in s;
    assert forall j :: 0 <= j < |s'| ==> k[j] == s'[j] && s'[j] in s';
    assert s == k[..|s|] && s' == k[..|s'|];
    assert i == k[|s| + 1..] && i' == k[|s'| + 1..];
  }

  function Stored(table: Table, key: string): seq<int> {
    if key in table then table[key] else []
  }

  predicate Admits(table: Table, r: Request) {
    |Since(Stored(table, KeyOf(r)), r.now - WINDOW_MS)| < r.maxRequests
  }

  function Extended(table: Table, r: Request): Table {
    table[KeyOf(r) := Since(Stored(table, KeyOf(r)), r.now - WINDOW_MS) + [r.now]]
  }

  predicate Clears(table: Table, r: Request) {
    Admits(table, r) && |Extended(table, r)| > MAX_KEYS
  }

  /** The table after a request; a rejected request leaves it as it was. */
  function Step(table: Table, r: Request): Table {
    if !Admits(table, r) then table else if Clears(table, r) then map[] else Extended(table, r)
  }

  function Run(rs: seq<Request>): Table {
    if rs == [] then map[] else Step(Run(rs[..|rs| - 1]), rs[|rs| - 1])
  }

  function AdmittedStep(table: Table, r: Request, key: string, h: seq<int>): seq<int> {
    if Clears(table, r) then []
    else if Admits(table, r) && KeyOf(r) == key then h + [r.now]
    else h
  }

  /** All times at which requests of this key were admitted since the table was last cleared. */
  function Admitted(rs: seq<Request>, key: string): seq<int> {
    if rs == [] then []
    else
      var before, r := rs[..|rs| - 1], rs[|rs| - 1];
      AdmittedStep(Run(before), r, key, Admitted(before, key))
  }

  ghost predicate ClockMonotone(rs: seq<Request>) {
    forall i, j :: 0 <= i < j < |rs| ==> rs[i].now <= rs[j].now
  }

  lemma {:induction false} AdmittedIsSorted(rs: seq<Request>, key: string)
    requires ClockMonotone(rs)
    ensures Sorted(Admitted(rs, key))
    ensures forall i :: 0 <= i < |Admitted(rs, key)| ==> |rs| > 0 && Admitted(rs, key)[i] <= rs[|rs| - 1].now
  {
    if rs != [] {
      var before := rs[..|rs| - 1];
      AdmittedIsSorted(before, key);
      if before != [] {
        assert before[|before| - 1] == rs[|rs| - 2];
      }
    }
  }

  function Last(s: seq<int>): int
    requires s != []
  {
    s[|s| - 1]
  }

  /** The table holds, per key, exactly the admitted times within the window before the latest one. */
  predicate HoldsLatestWindow(table: Table, key: string, h: seq<int>) {
    Stored(table, key) == if h == [] then [] else Since(h, Last(h) - WINDOW_MS)
  }

  lemma PrunedAnswersAlike(table: Table, key: string, h: seq<int>, now: int)
    requires HoldsLatestWindow(table, key, h) && (h == [] || Last(h) <= now)
    ensures Since(Stored(table, key), now - WINDOW_MS) == Since(h, now - WINDOW_MS)
  {
    if h != [] {
      SinceSince(h, Last(h) - WINDOW_MS, now - WINDOW_MS);
    }
  }

  lemma ExtendedHoldsLatestWindow(table: Table, r: Request, h: seq<int>)
    requires HoldsLatestWindow(table, KeyOf(r), h) && (h == [] || Last(h) <= r.now)
    ensures HoldsLatestWindow(Extended(table, r), KeyOf(r), h + [r.now])
  {
    PrunedAnswersAlike(table, KeyOf(r), h, r.now);
    SinceSnoc(h, r.now, r.now - WINDOW_MS);
    assert Stored(Extended(table, r), KeyOf(r)) == Since(h, r.now - WINDOW_MS) + [r.now];
    assert Last(h + [r.now]) == r.now;
  }

  lemma StepHoldsLatestWindow(table: Table, r: Request, key: string, h: seq<int>)
    requires HoldsLatestWindow(table, key, h) && (h == [] || Last(h) <= r.now)
    ensures HoldsLatestWindow(Step(table, r), key, AdmittedStep(table, r, key, h))
  {
    if KeyOf(r) == key {
      ExtendedHoldsLatestWindow(table, r, h);
    }
  }

  lemma {:induction false} TableHoldsLatestWindow(rs: seq<Request>, key: string)
    requires ClockMonotone(rs)
    ensures HoldsLatestWindow(Run(rs), key, Admitted(rs, key))
  {
    if rs != [] {
      var before, r := rs[..|rs| - 1], rs[|rs| - 1];
      TableHoldsLatestWindow(before, key);
      AdmittedBefore(before, r, key);
      StepHoldsLatestWindow(Run(before), r, key, Admitted(before, key));
    }
  }

  lemma AdmittedBefore(rs: seq<Request>, r: Request, key: string)
    requires ClockMonotone(rs + [r])
    ensures ClockMonotone(rs)
    ensures var h := Admitted(rs, key); Sorted(h) && (h == [] || Last(h) <= r.now)
  {
    assert forall i :: 0 <= i < |rs| ==> (rs + [r])[i] == rs[i];
    assert (rs + [r])[|rs|] == r;
    AdmittedIsSorted(rs, key);
  }

  lemma AdmissionFollowsHistory(table: Table, r: Request, h: seq<int>)
    requires HoldsLatestWindow(table, KeyOf(r), h) && (h == [] || Last(h) <= r.now)
    ensures Admits(table, r) <==> |Since(h, r.now - WINDOW_MS)| < r.maxRequests
  {
    PrunedAnswersAlike(table, KeyOf(r), h, r.now);
  }

  /**
   A request is admitted exactly when fewer than its limit of the same scope and identity were
   admitted in the closed window before it, rejected ones not counting.
   */
  lemma AdmissionIsExact(rs: seq<Request>, r: Request)
    requires ClockMonotone(rs + [r])
    ensures Admits(Run(rs), r) <==> |Since(Admitted(rs, KeyOf(r)), r.now - WINDOW_MS)| < r.maxRequests
  {
    AdmittedBefore(rs, r, KeyOf(r));
    TableHoldsLatestWindow(rs, KeyOf(r));
    AdmissionFollowsHistory(Run(rs), r, Admitted(rs, KeyOf(r)));
  }

  /** The requests of a run that were admitted. */
  function AdmittedOnly(rs: seq<Request>): seq<Request> {
    if rs == [] then []
    else
      var before, r := rs[..|rs| - 1], rs[|rs| - 1];
      AdmittedOnly(before) + if Admits(Run(before), r) then [r] else []
  }

  /** Rejected requests consume nothing: without them the run ends in the same table. */
  lemma {:induction false} RejectedConsumeNothing(rs: seq<Request>)
    ensures Run(AdmittedOnly(rs)) == Run(rs)
  {
    if rs != [] {
      var before, r := rs[..|rs| - 1], rs[|rs| - 1];
      RejectedConsumeNothing(before);
      assert rs == before + [r];
      AdmittedOnlySnoc(before, r);
      if Admits(Run(before), r) {
        RunExtends(AdmittedOnly(before), before, r);
      } else {
        RejectedChangesNothing(before, r);
      }
    }
  }

  lemma RunExtends(a: seq<Request>, b: seq<Request>, r: Request)
    requires Run(a) == Run(b)
    ensures Run(a + [r]) == Run(b + [r])
  {
    RunSnoc(a, r);
    RunSnoc(b, r);
  }

  lemma RejectedChangesNothing(rs: seq<Request>, r: Request)
    requires !Admits(Run(rs), r)
    ensures Run(rs + [r]) == Run(rs)
  {
    RunSnoc(rs, r);
  }

  lemma RunSnoc(rs: seq<Request>, r: Request)
    ensures Run(rs + [r]) == Step(Run(rs), r)
  {
    assert (rs + [r])[..|rs|] == rs;
  }

  lemma AdmittedOnlySnoc(rs: seq<Request>, r: Request)
    ensures AdmittedOnly(rs + [r]) == if Admits(Run(rs), r) then AdmittedOnly(rs) + [r] else AdmittedOnly(rs)
  {
    assert (rs + [r])[..|rs|] == rs;
    assert AdmittedOnly(rs) + [] == AdmittedOnly(rs);
  }

  /** The elements within [from, to]. */
  function Within(s: seq<int>, from: int, to: int): seq<int> {
    if s == [] then []
    else
      var front := Within(s[..|s| - 1], from, to);
      if from <= s[|s| - 1] <= to then front + [s[|s| - 1]] else front
  }

  /** Each admitted time is among at most `limit` in the window that ends with it. */
  predicate Bounded(h: seq<int>, limit: int) {
    h == [] || (Bounded(h[..|h| - 1], limit) && |Since(h, Last(h) - WINDOW_MS)| <= limit)
  }

  lemma StepKeepsBounded(table: Table, r: Request, key: string, h: seq<int>, limit: int)
    requires HoldsLatestWindow(table, key, h) && (h == [] || Last(h) <= r.now)
    requires Bounded(h, limit) && (KeyOf(r) == key ==> r.maxRequests <= limit)
    ensures Bounded(AdmittedStep(table, r, key, h), limit)
  {
    if Admits(table, r) && !Clears(table, r) && KeyOf(r) == key {
      AdmissionFollowsHistory(table, r, h);
      BoundedSnoc(h, r.now, limit);
    }
  }

  lemma BoundedSnoc(h: seq<int>, t: int, limit: int)
    requires Bounded(h, limit) && |Since(h, t - WINDOW_MS)| < limit
    ensures Bounded(h + [t], limit)
  {
    var longer := h + [t];
    SinceSnoc(h, t, t - WINDOW_MS);
    assert longer[..|longer| - 1] == h && Last(longer) == t;
  }

  lemma {:induction false} AdmittedIsBounded(rs: seq<Request>, key: string, limit: nat)
    requires ClockMonotone(rs)
    requires forall r :: r in rs && KeyOf(r) == key ==> r.maxRequests <= limit
    ensures Bounded(Admitted(rs, key), limit)
  {
    if rs != [] {
      var before, r := rs[..|rs| - 1], rs[|rs| - 1];
      assert forall x :: x in before ==> x in rs;
      assert r in rs && rs == before + [r];
      AdmittedIsBounded(before, key, limit);
      AdmittedBefore(before, r, key);
      TableHoldsLatestWindow(before, key);
      StepKeepsBounded(Run(before), r, key, Admitted(before, key), limit);
    }
  }

  lemma {:induction false} SinceShrinks(s: seq<int>, a: int, b: int)
    requires a <= b
    ensures |Since(s, b)| <= |Since(s, a)|
  {
    SinceSince(s, a, b);
  }

  lemma {:induction false} WithinIsSince(s: seq<int>, from: int, to: int)
    requires forall i :: 0 <= i < |s| ==> s[i] <= to
    ensures Within(s, from, to) == Since(s, from)
  {
    if s != [] {
      WithinIsSince(s[..|s| - 1], from, to);
    }
  }

  lemma {:induction false} EveryWindowIsBounded(h: seq<int>, from: int, limit: nat)
    requires Sorted(h) && Bounded(h, limit)
    ensures |Within(h, from, from + WINDOW_MS)| <= limit
  {
    if h != [] {
      var n := |h| - 1;
      if h[n] <= from + WINDOW_MS {
        WithinIsSince(h, from, from + WINDOW_MS);
        SinceShrinks(h, h[n] - WINDOW_MS, from);
      } else {
        EveryWindowIsBounded(h[..n], from, limit);
      }
    }
  }

  /**
   In every run, every closed window of 1000 ms holds at most the limit of admitted requests
   per scope and identity, counted since the table was last cleared.
   */
  lemma AdmissionsPerWindow(rs: seq<Request>, key: string, limit: nat, from: int)
    requires ClockMonotone(rs)
    requires forall r :: r in rs && KeyOf(r) == key ==> r.maxRequests <= limit
    ensures |Within(Admitted(rs, key), from, from + WINDOW_MS)| <= limit
  {
    AdmittedIsSorted(rs, key);
    AdmittedIsBounded(rs, key, limit);
    EveryWindowIsBounded(Admitted(rs, key), from, limit);
  }

  lemma {:induction false} TableStaysSmall(rs: seq<Request>)
    ensures |Run(rs)| <= MAX_KEYS
  {
    if rs != [] {
      TableStaysSmall(rs[..|rs| - 1]);
    }
  }

  // The limiter without pruning, as what the pruned table stands for

  /** How many of the requests have this key and a time not before `start`. */
  function Hits(h: seq<Request>, key: string, start: int): nat {
    if h == [] then 0
    else
      var r := h[|h| - 1];
      Hits(h[..|h| - 1], key, start) + if KeyOf(r) == key && r.now >= start then 1 else 0
  }

  function KeysOf(h: seq<Request>): set<string> {
    set r | r in h :: KeyOf(r)
  }

  /** Fewer than the limit of its kind were accepted in the second before. */
  predicate Accepts(h: seq<Request>, r: Request) {
    Hits(h, KeyOf(r), r.now - 1000) < r.maxRequests
  }

  function EpochAfter(h: seq<Request>, r: Request): seq<Request> {
    if !Accepts(h, r) then h else if |KeysOf(h + [r])| > 10_000 then [] else h + [r]
  }

  /** All accepted requests, in order; everything is forgotten when there would be more than 10000 keys. */
  function Epoch(rs: seq<Request>): seq<Request> {
    if rs == [] then [] else EpochAfter(Epoch(rs[..|rs| - 1]), rs[|rs| - 1])
  }

  function TimesOf(h: seq<Request>, key: string): seq<int> {
    if h == [] then []
    else
      var r := h[|h| - 1];
      TimesOf(h[..|h| - 1], key) + if KeyOf(r) == key then [r.now] else []
  }

  lemma {:induction false} HitsAreTimes(h: seq<Request>, key: string, start: int)
    ensures Hits(h, key, start) == |Since(TimesOf(h, key), start)|
  {
    if h != [] {
      var r := h[|h| - 1];
      HitsAreTimes(h[..|h| - 1], key, start);
      SinceSnoc(TimesOf(h[..|h| - 1], key), r.now, start);
      assert TimesOf(h[..|h| - 1], key) + [] == TimesOf(h[..|h| - 1], key);
    }
  }

  lemma TimesSnoc(h: seq<Request>, r: Request, key: string)
    ensures TimesOf(h + [r], key) == if KeyOf(r) == key then TimesOf(h, key) + [r.now] else TimesOf(h, key)
  {
    assert (h + [r])[..|h|] == h;
    assert TimesOf(h, key) + [] == TimesOf(h, key);
  }

  lemma KeysSnoc(h: seq<Request>, r: Request)
    ensures KeysOf(h + [r]) == KeysOf(h) + {KeyOf(r)}
  {
    forall k: string
      ensures k in KeysOf(h + [r]) <==> k in KeysOf(h) + {KeyOf(r)}
    {
      if k in KeysOf(h) {
        var x :| x in h && KeyOf(x) == k;
        assert x in h + [r];
      }
      assert r in h + [r];
    }
  }

  lemma StepStandsForEpoch(table: Table, r: Request, h: seq<Request>, key: string)
    requires table.Keys == KeysOf(h) && (Admits(table, r) <==> Accepts(h, r))
    ensures Step(table, r).Keys == KeysOf(EpochAfter(h, r))
    ensures AdmittedStep(table, r, key, TimesOf(h, key)) == TimesOf(EpochAfter(h, r), key)
  {
    ClearsAlike(table, r, h);
    TimesSnoc(h, r, key);
  }

  lemma ClearsAlike(table: Table, r: Request, h: seq<Request>)
    requires table.Keys == KeysOf(h)
    ensures Extended(table, r).Keys == KeysOf(h + [r])
    ensures |Extended(table, r)| == |KeysOf(h + [r])|
  {
    KeysSnoc(h, r);
    assert Extended(table, r).Keys == table.Keys + {KeyOf(r)};
    assert |Extended(table, r)| == |Extended(table, r).Keys|;
  }

  lemma {:induction false} TableStandsForEpoch(rs: seq<Request>, key: string)
    requires ClockMonotone(rs)
    ensures Run(rs).Keys == KeysOf(Epoch(rs)) && Admitted(rs, key) == TimesOf(Epoch(rs), key)
  {
    if rs != [] {
      var before, r := rs[..|rs| - 1], rs[|rs| - 1];
      assert rs == before + [r];
      AdmittedBefore(before, r, KeyOf(r));
      TableStandsForEpoch(before, key);
      TableStandsForEpoch(before, KeyOf(r));
      SameAnswer(before, r);
      StepStandsForEpoch(Run(before), r, Epoch(before), key);
    }
  }

  lemma SameAnswer(rs: seq<Request>, r: Request)
    requires ClockMonotone(rs + [r]) && Admitted(rs, KeyOf(r)) == TimesOf(Epoch(rs), KeyOf(r))
    ensures Admits(Run(rs), r) <==> Accepts(Epoch(rs), r)
  {
    AdmissionIsExact(rs, r);
    HitsAreTimes(Epoch(rs), KeyOf(r), r.now - 1000);
  }

  /**
   In every run the pruned table answers as the list of all accepted requests does, and is dropped
   exactly when an accepted request would make it 10001 keys.
   */
  lemma LimiterIsExact(rs: seq<Request>, r: Request)
    requires ClockMonotone(rs + [r])
    ensures Admits(Run(rs), r) <==> Accepts(Epoch(rs), r)
    ensures Run(rs).Keys == KeysOf(Epoch(rs))
    ensures Run(rs + [r]) == map[] <==>
            if Accepts(Epoch(rs), r) then |KeysOf(Epoch(rs)) + {KeyOf(r)}| > 10_000 else Epoch(rs) == []
  {
    AdmittedBefore(rs, r, KeyOf(r));
    TableStandsForEpoch(rs, KeyOf(r));
    SameAnswer(rs, r);
    RunSnoc(rs, r);
    EmptyIff(Run(rs), r, Epoch(rs));
  }

  lemma EmptyIff(table: Table, r: Request, h: seq<Request>)
    requires table.Keys == KeysOf(h) && (Admits(table, r) <==> Accepts(h, r))
    ensures Step(table, r) == map[] <==> if Accepts(h, r) then |KeysOf(h) + {KeyOf(r)}| > 10_000 else h == []
  {
    ClearsAlike(table, r, h);
    KeysSnoc(h, r);
    assert KeyOf(r) in Extended(table, r);
    if h != [] {
      assert KeyOf(h[0]) in KeysOf(h);
    }
  }

  /** The controller with its table. */
  class LogQueryController {
    var requestBuckets: Table

    constructor ()
      ensures requestBuckets == Run([])
    {
      requestBuckets := map[];
    }

    /** `ok` is false where the code throws "too many requests". */
    method AssertRateLimit(identity: string, scope: string, maxRequests: int, now: int) returns (ok: bool)
      modifies this
      ensures var r := Request(scope, identity, maxRequests, now);
              ok == Admits(old(requestBuckets), r) && requestBuckets == Step(old(requestBuckets), r)
    {
      var key := scope + ":" + identity;
      var window := if key in requestBuckets then requestBuckets[key] else [];
      var start := now - WINDOW_MS;
      var filtered := Since(window, start);
      if |filtered| >= maxRequests {
        return false;
      }
      requestBuckets := requestBuckets[key := filtered + [now]];
      if |requestBuckets| > MAX_KEYS {
        requestBuckets := map[];
      }
      return true;
    }
  }
}
