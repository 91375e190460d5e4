/** Removing repeats from a sequence: of the elements with equal keys only the first stays. */
module FirstOccurrence {

  function KeysOf<T, K(==)>(s: seq<T>, key: T -> K): set<K> {
    if s == [] then {} else KeysOf(s[..|s| - 1], key) + {key(s[|s| - 1])}
  }

  function Dedup<T, K(==)>(s: seq<T>, key: T -> K): seq<T> {
    if s == [] then []
    else
      var front := Dedup(s[..|s| - 1], key);
      if key(s[|s| - 1]) in KeysOf(s[..|s| - 1], key) then front else front + [s[|s| - 1]]
  }

  predicate NoRepeats<T, K(==)>(s: seq<T>, key: T -> K) {
    s == [] || (NoRepeats(s[..|s| - 1], key) && key(s[|s| - 1]) !in KeysOf(s[..|s| - 1], key))
  }

  function Take<T>(s: seq<T>, n: int): seq<T> {
    if n <= 0 then [] else if n < |s| then s[..n] else s
  }

  lemma TakeAll<T>(s: seq<T>, n: int)
    requires |Take(s, n)| < n
    ensures Take(s, n) == s
    ensures forall x :: Take(s + [x], n) == s + [x]
  {
  }

  lemma DedupSnoc<T, K>(s: seq<T>, x: T, key: T -> K)
    ensures Dedup(s + [x], key) == if key(x) in KeysOf(s, key) then Dedup(s, key) else Dedup(s, key) + [x]
    ensures KeysOf(s + [x], key) == KeysOf(s, key) + {key(x)}
  {
    assert (s + [x])[..|s|] == s;
  }

  lemma {:induction false} KeysOfConcat<T, K>(a: seq<T>, b: seq<T>, key: T -> K)
    ensures KeysOf(a + b, key) == KeysOf(a, key) + KeysOf(b, key)
  {
    if b == [] {
      assert a + b == a;
    } else {
      var n := |b| - 1;
      KeysOfConcat(a, b[..n], key);
      assert (a + b)[..|a| + n] == a + b[..n];
    }
  }

  /** What later elements add comes at the end. */
  lemma {:induction false} DedupPrefix<T, K>(a: seq<T>, b: seq<T>, key: T -> K)
    ensures Dedup(a, key) <= Dedup(a + b, key)
  {
    if b == [] {
      assert a + b == a;
    } else {
      var n := |b| - 1;
      DedupPrefix(a, b[..n], key);
      assert (a + b)[..|a| + n] == a + b[..n];
    }
  }

  lemma DedupOfPrefix<T, K>(a: seq<T>, c: seq<T>, key: T -> K)
    requires a <= c
    ensures Dedup(a, key) <= Dedup(c, key)
  {
    assert c == a + c[|a|..];
    DedupPrefix(a, c[|a|..], key);
  }

  /** The position of an element with a given key. */
  lemma {:induction false} KeyWitness<T, K>(s: seq<T>, key: T -> K, k: K) returns (i: nat)
    requires k in KeysOf(s, key)
    ensures i < |s| && key(s[i]) == k
  {
    var n := |s| - 1;
    if key(s[n]) == k {
      i := n;
    } else {
      i := KeyWitness(s[..n], key, k);
    }
  }

  lemma {:induction false} KeyOfElement<T, K>(s: seq<T>, key: T -> K, i: nat)
    requires i < |s|
    ensures key(s[i]) in KeysOf(s, key)
  {
    if i < |s| - 1 {
      KeyOfElement(s[..|s| - 1], key, i);
    }
  }

  /** The result has every key, and each once. */
  lemma {:induction false} DedupKeepsEachKeyOnce<T, K>(s: seq<T>, key: T -> K)
    ensures KeysOf(Dedup(s, key), key) == KeysOf(s, key)
    ensures NoRepeats(Dedup(s, key), key)
  {
    if s != [] {
      var front, x := s[..|s| - 1], s[|s| - 1];
      DedupKeepsEachKeyOnce(front, key);
      if key(x) !in KeysOf(front, key) {
        NoRepeatsSnoc(Dedup(front, key), x, key);
        DedupSnoc(Dedup(front, key), x, key);
      } else {
        assert KeysOf(s, key) == KeysOf(front, key);
      }
    }
  }

  /** Each element of the result is the first of the sequence with its key. */
  lemma {:induction false} DedupKeepsFirst<T, K>(s: seq<T>, key: T -> K, d: nat) returns (i: nat)
    requires d < |Dedup(s, key)|
    ensures i < |s| && Dedup(s, key)[d] == s[i] && key(s[i]) !in KeysOf(s[..i], key)
  {
    var n := |s| - 1;
    if d < |Dedup(s[..n], key)| {
      i := DedupKeepsFirst(s[..n], key, d);
      assert s[..n][..i] == s[..i];
    } else {
      i := n;
    }
  }

  /** Elements that are kept stay in order. */
  lemma {:induction false} DedupKeepsOrder<T, K>(s: seq<T>, key: T -> K, d: nat, e: nat) returns (i: nat, j: nat)
    requires d < e < |Dedup(s, key)|
    ensures i < j < |s| && Dedup(s, key)[d] == s[i] && Dedup(s, key)[e] == s[j]
  {
    var n := |s| - 1;
    if e < |Dedup(s[..n], key)| {
      i, j := DedupKeepsOrder(s[..n], key, d, e);
    } else {
      i := DedupKeepsFirst(s[..n], key, d);
      j := n;
    }
  }

  lemma {:induction false} DedupOfDistinct<T, K>(s: seq<T>, key: T -> K)
    requires NoRepeats(s, key)
    ensures Dedup(s, key) == s
  {
    if s != [] {
      DedupOfDistinct(s[..|s| - 1], key);
    }
  }

  lemma {:induction false} NoRepeatsConcat<T, K>(a: seq<T>, b: seq<T>, key: T -> K)
    requires NoRepeats(a, key) && NoRepeats(b, key) && KeysOf(a, key) !! KeysOf(b, key)
    ensures NoRepeats(a + b, key)
  {
    if b == [] {
      assert a + b == a;
    } else {
      var n := |b| - 1;
      NoRepeatsConcat(a, b[..n], key);
      KeysOfConcat(a, b[..n], key);
      assert (a + b)[..|a| + n] == a + b[..n];
    }
  }

  lemma NoRepeatsSnoc<T, K>(s: seq<T>, x: T, key: T -> K)
    requires NoRepeats(s, key) && key(x) !in KeysOf(s, key)
    ensures NoRepeats(s + [x], key)
  {
    assert (s + [x])[..|s|] == s;
  }

  lemma {:induction false} NoRepeatsMeans<T, K>(s: seq<T>, key: T -> K, i: nat, j: nat)
    requires NoRepeats(s, key) && i < j < |s|
    ensures key(s[i]) != key(s[j])
  {
    var n := |s| - 1;
    if j < n {
      NoRepeatsMeans(s[..n], key, i, j);
    } else {
      KeyOfElement(s[..n], key, i);
    }
  }

  lemma {:induction false} NoRepeatsPrefix<T, K>(s: seq<T>, n: nat, key: T -> K)
    requires n <= |s| && NoRepeats(s, key)
    ensures NoRepeats(s[..n], key)
  {
    if n < |s| {
      NoRepeatsPrefix(s[..|s| - 1], n, key);
      assert s[..|s| - 1][..n] == s[..n];
    } else {
      assert s[..n] == s;
    }
  }
}
