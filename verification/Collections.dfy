/** Option values and the few facts about time-stamped sequences that several modules share. */
module Collections {

  datatype Option<+T> = None | Some(value: T) {
    function GetOr(fallback: T): T {
      if Some? then value else fallback
    }
  }

  function Min(x: int, y: int): int {
    if x <= y then x else y
  }

  function Max(x: int, y: int): int {
    if x >= y then x else y
  }

  predicate Sorted(s: seq<int>) {
    forall i, j :: 0 <= i < j < |s| ==> s[i] <= s[j]
  }

  /** The elements that are at least `start`, in order (a filter over time stamps). */
  function Since(s: seq<int>, start: int): (r: seq<int>)
    ensures |r| <= |s|
    ensures forall t :: t in r ==> t in s && start <= t
  {
    if s == [] then []
    else
      var front := Since(s[..|s| - 1], start);
      if s[|s| - 1] >= start then front + [s[|s| - 1]] else front
  }

  lemma SinceSnoc(s: seq<int>, t: int, start: int)
    ensures Since(s + [t], start) == if t >= start then Since(s, start) + [t] else Since(s, start)
  {
    assert (s + [t])[..|s|] == s;
  }

  /** Filtering twice keeps what the later bound keeps. */
  lemma {:induction false} SinceSince(s: seq<int>, a: int, b: int)
    requires a <= b
    ensures Since(Since(s, a), b) == Since(s, b)
  {
    if s != [] {
      var front, t := s[..|s| - 1], s[|s| - 1];
      SinceSince(front, a, b);
      if t >= a {
        SinceSnoc(Since(front, a), t, b);
      }
    }
  }

  /** On a sorted sequence the filter is a suffix. */
  lemma {:induction false} SinceIsSuffix(s: seq<int>, start: int) returns (k: nat)
    requires Sorted(s)
    ensures k <= |s| && Since(s, start) == s[k..]
    ensures forall i :: 0 <= i < |s| ==> (s[i] >= start <==> i >= k)
  {
    if s == [] {
      k := 0;
    } else {
      var n := |s| - 1;
      if s[n] < start {
        k := |s|;
        SinceNone(s, start);
      } else {
        k := SinceIsSuffix(s[..n], start);
        LongerSuffix(s, n, k, start);
      }
    }
  }

  lemma LongerSuffix(s: seq<int>, n: nat, k: nat, start: int)
    requires n + 1 == |s| && k <= n && s[n] >= start && Since(s[..n], start) == s[..n][k..]
    requires forall i :: 0 <= i < n ==> (s[..n][i] >= start <==> i >= k)
    ensures Since(s, start) == s[k..]
    ensures forall i :: 0 <= i < |s| ==> (s[i] >= start <==> i >= k)
  {
    var front := s[..n];
    assert forall i :: 0 <= i < n ==> s[i] == front[i];
    assert s[k..] == front[k..] + [s[n]];
  }

  lemma {:induction false} SinceNone(s: seq<int>, start: int)
    requires forall i :: 0 <= i < |s| ==> s[i] < start
    ensures Since(s, start) == []
  {
    if s != [] {
      SinceNone(s[..|s| - 1], start);
    }
  }

  function Flatten<T>(lists: seq<seq<T>>): seq<T> {
    if lists == [] then [] else Flatten(lists[..|lists| - 1]) + lists[|lists| - 1]
  }

  lemma FlattenStep<T>(lists: seq<seq<T>>, k: nat)
    requires k < |lists|
    ensures Flatten(lists[..k + 1]) == Flatten(lists[..k]) + lists[k]
  {
    assert lists[..k + 1][..k] == lists[..k];
  }

  lemma {:induction false} FlattenPrefix<T>(lists: seq<seq<T>>, i: nat, k: nat)
    requires i <= k <= |lists|
    ensures Flatten(lists[..i]) <= Flatten(lists[..k])
    decreases k
  {
    if i < k {
      FlattenPrefix(lists, i, k - 1);
      FlattenStep(lists, k - 1);
    }
  }

  /** `s.slice(start)` as the language defines it: a negative start counts from the end. */
  function SliceFrom<T>(s: seq<T>, start: int): seq<T> {
    if start < 0 then s[Max(0, |s| + start)..] else s[Min(start, |s|)..]
  }

  /** The last `k` elements. */
  function LastN<T>(s: seq<T>, k: nat): (r: seq<T>)
    requires k <= |s|
    ensures |r| == k
  {
    s[|s| - k..]
  }
}
