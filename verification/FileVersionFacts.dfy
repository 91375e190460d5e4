/** Pruning after every creation keeps exactly what pruning the whole history once would keep. */
module FileVersionFacts {
  import opened Collections
  import opened FileVersions

  // One pruning

  lemma {:induction false} IdsOfConcat(a: seq<Version>, b: seq<Version>)
    ensures IdsOf(a + b) == IdsOf(a) + IdsOf(b)
  {
    if a == [] {
      assert a + b == b;
    } else {
      IdsOfConcat(a[1..], b);
      assert (a + b)[1..] == a[1..] + b;
    }
  }

  lemma PruningDropsOldest(all: seq<Version>)
    requires DistinctIds(all)
    ensures Remove(all, IdsOf(ToDelete(all))) == Pruned(all)
  {
    var autos := First(BySource(all, Auto), Excess(all));
    var manuals := First(BySource(all, Manual), Excess(all) - |autos|);
    assert ToDelete(all) == autos + manuals && |autos| == DroppedAutos(all);
    IdsOfConcat(autos, manuals);
    RemoveTwice(all, IdsOf(autos), IdsOf(manuals));
    RemoveOldest(all, Auto, Excess(all));
    DropAtMostAll(all, Auto, Excess(all));
    var left := DropOldest(all, Auto, DroppedAutos(all));
    DropOldestSources(all, Auto, DroppedAutos(all));
    RemoveOldest(left, Manual, Excess(all) - DroppedAutos(all));
  }

  lemma {:induction false} DropAtMostAll(s: seq<Version>, source: Source, k: nat)
    ensures DropOldest(s, source, k) == DropOldest(s, source, Min(k, |BySource(s, source)|))
  {
    if s != [] && k > 0 {
      DropAtMostAll(s[1..], source, if s[0].source == source then k - 1 else k);
      DropNone(s);
    }
  }

  lemma DropNone(s: seq<Version>)
    ensures forall source :: DropOldest(s, source, 0) == s
  {
  }

  // Dropping in several goes

  lemma {:induction false} BySourceSnoc(s: seq<Version>, v: Version, source: Source)
    ensures BySource(s + [v], source) == BySource(s, source) + if v.source == source then [v] else []
  {
    if s == [] {
      assert s + [v] == [v];
    } else {
      BySourceSnoc(s[1..], v, source);
      assert (s + [v])[1..] == s[1..] + [v];
    }
  }

  lemma {:induction false} DropSnoc(s: seq<Version>, v: Version, source: Source, k: nat)
    requires k <= |BySource(s, source)|
    ensures DropOldest(s + [v], source, k) == DropOldest(s, source, k) + [v]
  {
    if s != [] && k > 0 {
      DropSnoc(s[1..], v, source, if s[0].source == source then k - 1 else k);
      assert (s + [v])[1..] == s[1..] + [v];
    }
  }

  lemma {:induction false} DropAgain(s: seq<Version>, source: Source, j: nat, k: nat)
    ensures DropOldest(DropOldest(s, source, j), source, k) == DropOldest(s, source, j + k)
  {
    if s != [] && j > 0 {
      if s[0].source == source {
        DropAgain(s[1..], source, j - 1, k);
      } else {
        DropAgain(s[1..], source, j, k);
        assert DropOldest(s, source, j)[1..] == DropOldest(s[1..], source, j);
      }
    }
  }

  lemma {:induction false} DropCommute(s: seq<Version>, autos: nat, manuals: nat)
    ensures DropOldest(DropOldest(s, Manual, manuals), Auto, autos) == Drop(s, autos, manuals)
  {
    if s != [] && autos > 0 && manuals > 0 {
      var rest := s[1..];
      if s[0].source == Auto {
        DropCommute(rest, autos - 1, manuals);
        assert DropOldest(s, Manual, manuals)[1..] == DropOldest(rest, Manual, manuals);
      } else {
        DropCommute(rest, autos, manuals - 1);
        assert DropOldest(s, Auto, autos)[1..] == DropOldest(rest, Auto, autos);
      }
    }
  }

  lemma DropTwice(s: seq<Version>, a: nat, m: nat, a': nat, m': nat)
    ensures Drop(Drop(s, a, m), a', m') == Drop(s, a + a', m + m')
  {
    var left := DropOldest(s, Auto, a);
    DropCommute(left, a', m);
    DropAgain(s, Auto, a, a');
    DropAgain(DropOldest(s, Auto, a + a'), Manual, m, m');
  }

  lemma DropSources(s: seq<Version>, a: nat, m: nat)
    requires a <= |BySource(s, Auto)| && m <= |BySource(s, Manual)|
    ensures BySource(Drop(s, a, m), Auto) == BySource(s, Auto)[a..]
    ensures BySource(Drop(s, a, m), Manual) == BySource(s, Manual)[m..]
    ensures |Drop(s, a, m)| == |s| - a - m
  {
    DropOldestSources(s, Auto, a);
    DropOldestSources(DropOldest(s, Auto, a), Manual, m);
  }

  lemma {:induction false} SourcesAddUp(s: seq<Version>)
    ensures |s| == |BySource(s, Auto)| + |BySource(s, Manual)|
  {
    if s != [] {
      SourcesAddUp(s[1..]);
    }
  }

  lemma DropLater(s: seq<Version>, v: Version, a: nat, m: nat)
    requires a <= |BySource(s, Auto)| && m <= |BySource(s, Manual)|
    ensures Drop(s + [v], a, m) == Drop(s, a, m) + [v]
  {
    DropSnoc(s, v, Auto, a);
    DropOldestSources(s, Auto, a);
    DropSnoc(DropOldest(s, Auto, a), v, Manual, m);
  }

  lemma PrunedCounts(h: seq<Version>)
    ensures DroppedAutos(h) <= |BySource(h, Auto)| && Excess(h) - DroppedAutos(h) <= |BySource(h, Manual)|
    ensures |Pruned(h)| == Min(|h|, MAX_VERSIONS_PER_FILE)
  {
    SourcesAddUp(h);
    DropSources(h, DroppedAutos(h), Excess(h) - DroppedAutos(h));
  }

  /** Pruning early loses nothing that a later pruning would have kept. */
  lemma PrunedSnoc(h: seq<Version>, v: Version)
    ensures Pruned(Pruned(h) + [v]) == Pruned(h + [v])
  {
    var a, m := DroppedAutos(h), Excess(h) - DroppedAutos(h);
    var f, g := Pruned(h) + [v], h + [v];
    PrunedCounts(h);
    DropLater(h, v, a, m);
    DropSources(h, a, m);
    BySourceSnoc(h, v, Auto);
    BySourceSnoc(Pruned(h), v, Auto);
    assert |BySource(f, Auto)| == |BySource(g, Auto)| - a;
    DropTwice(g, a, m, DroppedAutos(f), Excess(f) - DroppedAutos(f));
    assert a + DroppedAutos(f) == DroppedAutos(g);
  }

  // What survives

  /**
   Of n versions of a file the newest min(n, 50) survive in this sense: of the manual ones the last
   min(M, 50), and of the automatic ones the last as many as there is room for.
   */
  lemma SurvivorsAreTheNewest(h: seq<Version>)
    ensures var manuals, autos := BySource(h, Manual), BySource(h, Auto);
            var keptManuals := Min(|manuals|, 50);
            var keptAutos := Min(|h|, 50) - keptManuals;
            && 0 <= keptAutos <= |autos|
            && BySource(Pruned(h), Manual) == LastN(manuals, keptManuals)
            && BySource(Pruned(h), Auto) == LastN(autos, keptAutos)
            && |Pruned(h)| == Min(|h|, 50)
  {
    SourcesAddUp(h);
    PrunedCounts(h);
    DropSources(h, DroppedAutos(h), Excess(h) - DroppedAutos(h));
  }

  /** A manual version is deleted only when no automatic version is left. */
  lemma ManualsGoLast(h: seq<Version>)
    ensures BySource(Pruned(h), Manual) != BySource(h, Manual) ==> BySource(Pruned(h), Auto) == []
  {
    SurvivorsAreTheNewest(h);
    SourcesAddUp(h);
  }

  /** The newest version survives its own creation unless it is automatic over fifty manual ones. */
  lemma NewestSurvivesIff(h: seq<Version>, v: Version)
    requires DistinctIds(h + [v])
    ensures v in Pruned(h + [v]) <==> v.source == Manual || |BySource(h, Manual)| < 50
  {
    var g := h + [v];
    BySourceSnoc(h, v, Manual);
    BySourceSnoc(h, v, Auto);
    SurvivorsAreTheNewest(g);
    SourcesAddUp(g);
    BySourceMembers(Pruned(g), v);
    var mine, kept := BySource(g, v.source), BySource(Pruned(g), v.source);
    assert mine[|mine| - 1] == v;
    if kept != [] {
      assert kept[|kept| - 1] == v;
    }
  }

  lemma {:induction false} BySourceMembers(s: seq<Version>, v: Version)
    ensures v in s <==> v in BySource(s, v.source)
  {
    if s != [] {
      BySourceMembers(s[1..], v);
      assert s == [s[0]] + s[1..];
    }
  }

  // The table

  lemma {:induction false} RowsOfSnoc(t: seq<Version>, v: Version, serverId: string, filePath: string)
    ensures RowsOf(t + [v], serverId, filePath) ==
            RowsOf(t, serverId, filePath) + if v.serverId == serverId && v.filePath == filePath then [v] else []
  {
    if t == [] {
      assert t + [v] == [v];
    } else {
      RowsOfSnoc(t[1..], v, serverId, filePath);
      assert (t + [v])[1..] == t[1..] + [v];
    }
  }

  lemma {:induction false} RowsOfRemove(t: seq<Version>, ids: set<string>, serverId: string, filePath: string)
    ensures RowsOf(Remove(t, ids), serverId, filePath) == Remove(RowsOf(t, serverId, filePath), ids)
  {
    if t != [] {
      RowsOfRemove(t[1..], ids, serverId, filePath);
      if t[0].id !in ids {
        assert Remove(t, ids)[1..] == Remove(t[1..], ids);
      }
    }
  }

  lemma {:induction false} RowsOfIds(t: seq<Version>, serverId: string, filePath: string)
    requires DistinctIds(t)
    ensures IdsOf(RowsOf(t, serverId, filePath)) <= IdsOf(t) && DistinctIds(RowsOf(t, serverId, filePath))
  {
    if t != [] {
      RowsOfIds(t[1..], serverId, filePath);
      var rest := RowsOf(t[1..], serverId, filePath);
      assert ([t[0]] + rest)[1..] == rest;
    }
  }

  lemma {:induction false} FilesShareNoIds(t: seq<Version>, serverId: string, filePath: string, serverId': string, filePath': string)
    requires DistinctIds(t) && (serverId != serverId' || filePath != filePath')
    ensures IdsOf(RowsOf(t, serverId, filePath)) !! IdsOf(RowsOf(t, serverId', filePath'))
  {
    if t != [] {
      FilesShareNoIds(t[1..], serverId, filePath, serverId', filePath');
      RowsOfIds(t[1..], serverId, filePath);
      RowsOfIds(t[1..], serverId', filePath');
      var a, b := RowsOf(t[1..], serverId, filePath), RowsOf(t[1..], serverId', filePath');
      assert ([t[0]] + a)[1..] == a && ([t[0]] + b)[1..] == b;
    }
  }

  lemma {:induction false} RemoveKeepsDistinct(s: seq<Version>, ids: set<string>)
    requires DistinctIds(s)
    ensures DistinctIds(Remove(s, ids)) && IdsOf(Remove(s, ids)) <= IdsOf(s)
  {
    if s != [] {
      RemoveKeepsDistinct(s[1..], ids);
      if s[0].id !in ids {
        assert Remove(s, ids)[1..] == Remove(s[1..], ids);
      }
    }
  }

  lemma {:induction false} DistinctSnoc(s: seq<Version>, v: Version)
    ensures DistinctIds(s + [v]) <==> DistinctIds(s) && v.id !in IdsOf(s)
    ensures IdsOf(s + [v]) == IdsOf(s) + {v.id}
  {
    if s == [] {
      assert s + [v] == [v];
    } else {
      DistinctSnoc(s[1..], v);
      assert (s + [v])[1..] == s[1..] + [v];
    }
  }

  lemma DeletedIdsAreOfTheFile(all: seq<Version>)
    ensures IdsOf(ToDelete(all)) <= IdsOf(all)
  {
    var excess := |all| - MAX_VERSIONS_PER_FILE;
    var autos := First(BySource(all, Auto), excess);
    FirstIdsComeFrom(all, Auto, excess);
    FirstIdsComeFrom(all, Manual, excess - |autos|);
    IdsOfConcat(autos, First(BySource(all, Manual), excess - |autos|));
  }

  /** Creating a version prunes its own file and touches no other. */
  lemma CreateTouchesOneFile(t: seq<Version>, v: Version, serverId: string, filePath: string)
    requires DistinctIds(t + [v])
    ensures RowsOf(AfterCreate(t, v), serverId, filePath) ==
            if v.serverId == serverId && v.filePath == filePath then Pruned(RowsOf(t, serverId, filePath) + [v])
            else RowsOf(t, serverId, filePath)
  {
    var own := RowsOf(t + [v], v.serverId, v.filePath);
    var rows := RowsOf(t + [v], serverId, filePath);
    RowsOfSnoc(t, v, serverId, filePath);
    RowsOfRemove(t + [v], IdsOf(ToDelete(own)), serverId, filePath);
    RowsOfIds(t + [v], serverId, filePath);
    if v.serverId == serverId && v.filePath == filePath {
      PruningDropsOldest(own);
    } else {
      FilesShareNoIds(t + [v], v.serverId, v.filePath, serverId, filePath);
      DeletedIdsAreOfTheFile(own);
      RemoveOthers(rows, {}, IdsOf(ToDelete(own)));
      RemoveNothing(rows);
      assert {} + IdsOf(ToDelete(own)) == IdsOf(ToDelete(own));
    }
  }

  lemma {:induction false} TableIdsAreDistinct(vs: seq<Version>)
    requires DistinctIds(vs)
    ensures DistinctIds(AfterAll(vs)) && IdsOf(AfterAll(vs)) <= IdsOf(vs)
  {
    if vs != [] {
      var before, v := vs[..|vs| - 1], vs[|vs| - 1];
      assert vs == before + [v];
      DistinctSnoc(before, v);
      TableIdsAreDistinct(before);
      DistinctSnoc(AfterAll(before), v);
      RemoveKeepsDistinct(AfterAll(before) + [v],
                          IdsOf(ToDelete(RowsOf(AfterAll(before) + [v], v.serverId, v.filePath))));
    }
  }

  /**
   After any creations, of any files, a file has exactly the versions that pruning its whole
   history once would leave.
   */
  lemma {:induction false} TableHoldsPrunedHistory(vs: seq<Version>, serverId: string, filePath: string)
    requires DistinctIds(vs)
    ensures RowsOf(AfterAll(vs), serverId, filePath) == Pruned(RowsOf(vs, serverId, filePath))
  {
    if vs != [] {
      var before, v := vs[..|vs| - 1], vs[|vs| - 1];
      assert vs == before + [v];
      DistinctSnoc(before, v);
      TableHoldsPrunedHistory(before, serverId, filePath);
      TableIdsAreDistinct(before);
      DistinctSnoc(AfterAll(before), v);
      CreateTouchesOneFile(AfterAll(before), v, serverId, filePath);
      RowsOfSnoc(before, v, serverId, filePath);
      PrunedSnoc(RowsOf(before, serverId, filePath), v);
      assert RowsOf(before, serverId, filePath) + [] == RowsOf(before, serverId, filePath);
    }
  }
}
