/** The version service with its table. */
module FileVersionService {
  import opened Collections
  import opened FileVersions
  import opened FileVersionFacts

  class FileVersionService {
    var rows: seq<Version>

    /** In creation order, which is the order of the time stamps; ids are unique. */
    ghost predicate Valid()
      reads this
    {
      DistinctIds(rows) && InOrder(rows)
    }

    constructor ()
      ensures Valid() && rows == AfterAll([])
    {
      rows := [];
    }

    method CreateVersion(v: Version)
      requires Valid() && v.id !in IdsOf(rows)
      requires forall r :: r in rows ==> r.createdAt <= v.createdAt
      modifies this
      ensures rows == AfterCreate(old(rows), v)
      ensures Valid()
    {
      DistinctSnoc(rows, v);
      InOrderSnoc(rows, v);
      rows := rows + [v];
      PruneOldVersions(v.serverId, v.filePath);
    }

    method PruneOldVersions(serverId: string, filePath: string)
      requires Valid()
      modifies this
      ensures rows == Remove(old(rows), IdsOf(ToDelete(RowsOf(old(rows), serverId, filePath))))
      ensures Valid()
    {
      var all := RowsOf(rows, serverId, filePath);
      if |all| <= MAX_VERSIONS_PER_FILE {
        RemoveNothing(rows);
        return;
      }
      var excess := |all| - MAX_VERSIONS_PER_FILE;
      var autoVersions := BySource(all, Auto);
      var toDelete := First(autoVersions, excess);
      if |toDelete| < excess {
        var remaining := excess - |toDelete|;
        var manualVersions := BySource(all, Manual);
        toDelete := toDelete + First(manualVersions, remaining);
      }
      assert toDelete == ToDelete(all);
      DeleteEach(toDelete);
    }

    method DeleteEach(toDelete: seq<Version>)
      requires Valid()
      modifies this
      ensures rows == Remove(old(rows), IdsOf(toDelete))
      ensures Valid()
    {
      RemoveNothing(rows);
      for i := 0 to |toDelete|
        invariant rows == Remove(old(rows), IdsOf(toDelete[..i]))
        invariant Valid()
      {
        DistinctSnoc(toDelete[..i], toDelete[i]);
        assert toDelete[..i + 1] == toDelete[..i] + [toDelete[i]];
        RemoveTwice(old(rows), IdsOf(toDelete[..i]), {toDelete[i].id});
        RemoveKeepsDistinct(rows, {toDelete[i].id});
        RemoveKeepsOrder(rows, {toDelete[i].id});
        rows := Remove(rows, {toDelete[i].id});
      }
      assert toDelete[..|toDelete|] == toDelete;
    }
  }

  ghost predicate InOrder(s: seq<Version>) {
    s == [] || ((forall r :: r in s[1..] ==> s[0].createdAt <= r.createdAt) && InOrder(s[1..]))
  }

  lemma {:induction false} InOrderSnoc(s: seq<Version>, v: Version)
    requires InOrder(s) && forall r :: r in s ==> r.createdAt <= v.createdAt
    ensures InOrder(s + [v])
  {
    if s != [] {
      assert s == [s[0]] + s[1..];
      InOrderSnoc(s[1..], v);
      assert (s + [v])[1..] == s[1..] + [v];
    }
  }

  lemma {:induction false} RemoveKeepsOrder(s: seq<Version>, ids: set<string>)
    requires InOrder(s)
    ensures InOrder(Remove(s, ids))
    ensures forall r :: r in Remove(s, ids) ==> r in s
  {
    if s != [] {
      RemoveKeepsOrder(s[1..], ids);
      assert s == [s[0]] + s[1..];
      if s[0].id !in ids {
        assert Remove(s, ids)[1..] == Remove(s[1..], ids);
      }
    }
  }
}
