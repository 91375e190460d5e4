/**
 Saved versions of files, at most fifty a file: automatic versions are pruned before manual ones,
 old ones before new ones. The table is kept in creation order.
 */
module FileVersions {
  import opened Collections

  datatype Source = Manual | Auto

  datatype Version = Version(
    id: string,
    serverId: string,
    filePath: string,
    content: string,
    userId: string,
    source: Source,
    createdAt: int)

  const MAX_VERSIONS_PER_FILE := 50

  function RowsOf(table: seq<Version>, serverId: string, filePath: string): seq<Version> {
    if table == [] then []
    else
      var rest := RowsOf(table[1..], serverId, filePath);
      if table[0].serverId == serverId && table[0].filePath == filePath then [table[0]] + rest else rest
  }

  function BySource(s: seq<Version>, source: Source): seq<Version> {
    if s == [] then []
    else
      var rest := BySource(s[1..], source);
      if s[0].source == source then [s[0]] + rest else rest
  }

  function First(s: seq<Version>, k: int): seq<Version> {
    s[..Min(Max(k, 0), |s|)]
  }

  /** What the pruning of one file deletes: automatic versions first, then manual ones. */
  function ToDelete(all: seq<Version>): seq<Version> {
    var excess := |all| - MAX_VERSIONS_PER_FILE;
    var autos := First(BySource(all, Auto), excess);
    autos + First(BySource(all, Manual), excess - |autos|)
  }

  function IdsOf(s: seq<Version>): set<string> {
    if s == [] then {} else {s[0].id} + IdsOf(s[1..])
  }

  function Remove(s: seq<Version>, ids: set<string>): seq<Version> {
    if s == [] then []
    else if s[0].id in ids then Remove(s[1..], ids)
    else [s[0]] + Remove(s[1..], ids)
  }

  /** The table after a version is created and its file pruned. */
  function AfterCreate(table: seq<Version>, v: Version): seq<Version> {
    var t := table + [v];
    Remove(t, IdsOf(ToDelete(RowsOf(t, v.serverId, v.filePath))))
  }

  function AfterAll(vs: seq<Version>): seq<Version> {
    if vs == [] then [] else AfterCreate(AfterAll(vs[..|vs| - 1]), vs[|vs| - 1])
  }

  // The plain meaning: drop the oldest of each source

  function DropOldest(s: seq<Version>, source: Source, k: nat): seq<Version> {
    if s == [] || k == 0 then s
    else if s[0].source == source then DropOldest(s[1..], source, k - 1)
    else [s[0]] + DropOldest(s[1..], source, k)
  }

  function Drop(s: seq<Version>, autos: nat, manuals: nat): seq<Version> {
    DropOldest(DropOldest(s, Auto, autos), Manual, manuals)
  }

  function Excess(s: seq<Version>): nat {
    Max(|s| - MAX_VERSIONS_PER_FILE, 0)
  }

  function DroppedAutos(s: seq<Version>): nat {
    Min(Excess(s), |BySource(s, Auto)|)
  }

  function Pruned(s: seq<Version>): seq<Version> {
    Drop(s, DroppedAutos(s), Excess(s) - DroppedAutos(s))
  }

  // Removing by id is dropping the oldest

  predicate DistinctIds(s: seq<Version>) {
    s == [] || (s[0].id !in IdsOf(s[1..]) && DistinctIds(s[1..]))
  }

  lemma {:induction false} RemoveTwice(s: seq<Version>, a: set<string>, b: set<string>)
    ensures Remove(Remove(s, a), b) == Remove(s, a + b)
  {
    if s != [] {
      RemoveTwice(s[1..], a, b);
      if s[0].id !in a {
        assert Remove(s, a)[1..] == Remove(s[1..], a);
      }
    }
  }

  /** Ids that do not occur may be left away. */
  lemma {:induction false} RemoveOthers(s: seq<Version>, ids: set<string>, more: set<string>)
    requires IdsOf(s) !! more
    ensures Remove(s, ids + more) == Remove(s, ids)
  {
    if s != [] {
      RemoveOthers(s[1..], ids, more);
      assert s[0].id in IdsOf(s);
    }
  }

  lemma {:induction false} RemoveOldest(s: seq<Version>, source: Source, k: nat)
    requires DistinctIds(s)
    ensures Remove(s, IdsOf(First(BySource(s, source), k))) == DropOldest(s, source, k)
  {
    if s == [] {
    } else if k == 0 {
      RemoveNothing(s);
    } else {
      var rest := s[1..];
      var ids := IdsOf(First(BySource(rest, source), if s[0].source == source then k - 1 else k));
      if s[0].source == source {
        RemoveOldest(rest, source, k - 1);
        assert First(BySource(s, source), k) == [s[0]] + First(BySource(rest, source), k - 1);
        assert ([s[0]] + First(BySource(rest, source), k - 1))[1..] == First(BySource(rest, source), k - 1);
        assert IdsOf(First(BySource(s, source), k)) == ids + {s[0].id};
        RemoveOthers(rest, ids, {s[0].id});
      } else {
        RemoveOldest(rest, source, k);
        FirstIdsComeFrom(rest, source, k);
      }
    }
  }

  lemma {:induction false} RemoveNothing(s: seq<Version>)
    ensures Remove(s, {}) == s
  {
    if s != [] {
      RemoveNothing(s[1..]);
    }
  }

  lemma {:induction false} FirstIdsComeFrom(s: seq<Version>, source: Source, k: int)
    ensures IdsOf(First(BySource(s, source), k)) <= IdsOf(s)
  {
    IdsOfPrefix(BySource(s, source), Min(Max(k, 0), |BySource(s, source)|));
    BySourceIds(s, source);
  }

  lemma {:induction false} IdsOfPrefix(s: seq<Version>, k: nat)
    requires k <= |s|
    ensures IdsOf(s[..k]) <= IdsOf(s)
  {
    if k > 0 {
      IdsOfPrefix(s[1..], k - 1);
      assert s[..k][1..] == s[1..][..k - 1];
    }
  }

  lemma {:induction false} BySourceIds(s: seq<Version>, source: Source)
    ensures IdsOf(BySource(s, source)) <= IdsOf(s)
  {
    if s != [] {
      BySourceIds(s[1..], source);
      if s[0].source == source {
        assert BySource(s, source)[1..] == BySource(s[1..], source);
      }
    }
  }

  lemma {:induction false} DropOldestSources(s: seq<Version>, source: Source, k: nat)
    ensures forall other :: other != source ==> BySource(DropOldest(s, source, k), other) == BySource(s, other)
    ensures BySource(DropOldest(s, source, k), source) == BySource(s, source)[Min(k, |BySource(s, source)|)..]
    ensures |DropOldest(s, source, k)| == |s| - Min(k, |BySource(s, source)|)
    ensures IdsOf(DropOldest(s, source, k)) <= IdsOf(s)
    ensures DistinctIds(s) ==> DistinctIds(DropOldest(s, source, k))
  {
    if s != [] && k > 0 {
      var rest := s[1..];
      if s[0].source == source {
        DropOldestSources(rest, source, k - 1);
      } else {
        DropOldestSources(rest, source, k);
        assert DropOldest(s, source, k)[1..] == DropOldest(rest, source, k);
      }
    }
  }
}
