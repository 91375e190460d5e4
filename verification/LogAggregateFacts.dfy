/** What batching and dropping repeated rows do to the aggregate search. */
module LogAggregateFacts {
  import opened Collections
  import opened Text
  import opened FirstOccurrence
  import opened LogSearch
  import opened LogAggregate

  // Batches

  /** Whether the search fails is decided at the first server that rejects. */
  lemma FirstRejectingDecides(answers: seq<Answer>, size: nat, maxTotal: int, j: nat)
    requires size >= 1 && j < |answers| && answers[j].outcome.Rejected?
    requires forall i :: 0 <= i < j ==> answers[i].outcome.Hits?
    ensures AsksRejecting(answers, size, maxTotal) <==> |DistinctRows(answers, BatchStart(j, size))| < maxTotal
  {
    if |DistinctRows(answers, BatchStart(j, size))| < maxTotal {
      assert RejectsAt(answers, size, maxTotal, j);
    }
    forall i: nat | j <= i < |answers| && RejectsAt(answers, size, maxTotal, i)
      ensures |DistinctRows(answers, BatchStart(j, size))| < maxTotal
    {
      BatchStartGrows(j, i, size);
      MoreServersMoreRows(answers, BatchStart(j, size), BatchStart(i, size));
    }
  }

  lemma BatchStartGrows(j: nat, i: nat, size: nat)
    requires size >= 1 && j <= i
    ensures BatchStart(j, size) <= BatchStart(i, size)
  {
    BatchStartOf(i, j / size, size);
  }

  /**
   When no search rejects the batch size never matters. Otherwise asking in batches differs from
   asking one server at a time exactly when the wanted total is reached by the servers of the
   first rejecting one's own batch: then batching fails and one at a time does not.
   */
  lemma BatchingMattersIff(answers: seq<Answer>, size: nat, maxTotal: int, fields: seq<Field>, j: nat)
    requires size >= 1 && j <= |answers|
    requires forall i :: 0 <= i < j ==> answers[i].outcome.Hits?
    requires j < |answers| ==> answers[j].outcome.Rejected?
    ensures j == |answers| ==> Aggregate(answers, size, maxTotal, fields) == Rows(FirstRows(answers, maxTotal, fields))
    ensures Aggregate(answers, size, maxTotal, fields) != Aggregate(answers, 1, maxTotal, fields) <==>
            && j < |answers|
            && |DistinctRows(answers, BatchStart(j, size))| < maxTotal <= |DistinctRows(answers, j)|
    ensures Aggregate(answers, size, maxTotal, fields) in {Failed, Aggregate(answers, 1, maxTotal, fields)}
  {
    if j < |answers| {
      FirstRejectingDecides(answers, size, maxTotal, j);
      FirstRejectingDecides(answers, 1, maxTotal, j);
      MoreServersMoreRows(answers, BatchStart(j, size), j);
    }
  }

  /** One row is wanted and the first server has it; the second server rejects. */
  lemma BatchOfFourCanFail(h: Hit)
    ensures var answers := [Answer("a", Hits([h])), Answer("b", Rejected)];
            Aggregate(answers, 4, 1, []) == Failed && Aggregate(answers, 1, 1, []) == Rows([Row("a", h)])
  {
    var answers := [Answer("a", Hits([h])), Answer("b", Rejected)];
    assert RowsOf(answers[0]) == [Row("a", h)];
    OneRow(answers, Row("a", h));
    FirstRejectingDecides(answers, CONCURRENCY, 1, 1);
    FirstRejectingDecides(answers, 1, 1, 1);
    assert BatchStart(1, CONCURRENCY) == 0 && BatchStart(1, 1) == 1;
  }

  lemma OneRow(answers: seq<Answer>, r: Row)
    requires |answers| == 2 && RowsOf(answers[0]) == [r] && RowsOf(answers[1]) == []
    ensures DistinctRows(answers, 0) == [] && DistinctRows(answers, 1) == [r]
    ensures FirstRows(answers, 1, []) == [r]
  {
    FlattenStep(RowLists(answers), 0);
    FlattenStep(RowLists(answers), 1);
    DedupSnoc([], r, RowKey);
    assert [] + [r] == [r];
  }

  // Which servers

  lemma {:induction false} TrimmedComeFromRequested(requested: seq<string>)
    ensures forall id :: id in TrimmedNonEmpty(requested) ==> exists i :: 0 <= i < |requested| && Trim(requested[i]) == id
    ensures TrimmedNonEmpty(requested) == [] <==> forall i :: 0 <= i < |requested| ==> Trim(requested[i]) == ""
  {
    if requested != [] {
      TrimmedComeFromRequested(requested[..|requested| - 1]);
    }
  }

  /** Each requested server is asked once; all configured ones are when only blanks are requested. */
  lemma RequestedServersAreAskedOnce(requested: seq<string>, configured: seq<string>)
    ensures var asked := ServersToAsk(requested, configured);
            if forall i :: 0 <= i < |requested| ==> Trim(requested[i]) == "" then asked == Take(configured, 200)
            else
              && NoRepeats(asked, Itself)
              && (forall id :: id in asked ==> exists i :: 0 <= i < |requested| && Trim(requested[i]) == id)
  {
    var ids := TrimmedNonEmpty(requested);
    TrimmedComeFromRequested(requested);
    DedupKeepsEachKeyOnce(ids, Itself);
    var distinct := Dedup(ids, Itself);
    forall d: nat | d < |distinct|
      ensures distinct[d] in ids
    {
      var i := DedupKeepsFirst(ids, Itself, d);
    }
    if |distinct| > MAX_SERVER_IDS {
      NoRepeatsPrefix(distinct, MAX_SERVER_IDS, Itself);
    }
  }

  lemma {:induction false} RequestedIsTrimmed(requested: seq<string>, i: nat)
    requires i < |requested| && Trim(requested[i]) != ""
    ensures Trim(requested[i]) in TrimmedNonEmpty(requested)
  {
    var n := |requested| - 1;
    if i < n {
      RequestedIsTrimmed(requested[..n], i);
    }
  }

  /** While fewer than 200 servers are asked, none that was requested is left out. */
  lemma EveryRequestedServerIsAsked(requested: seq<string>, configured: seq<string>, i: nat)
    requires i < |requested| && Trim(requested[i]) != "" && |ServersToAsk(requested, configured)| < 200
    ensures Trim(requested[i]) in ServersToAsk(requested, configured)
  {
    var ids, id := TrimmedNonEmpty(requested), Trim(requested[i]);
    RequestedIsTrimmed(requested, i);
    var j: nat :| j < |ids| && ids[j] == id;
    DedupHas(ids, j);
  }

  lemma DedupHas(ids: seq<string>, j: nat)
    requires j < |ids|
    ensures ids[j] in Dedup(ids, Itself)
  {
    DedupKeepsEachKeyOnce(ids, Itself);
    KeyOfElement(ids, Itself, j);
    var d := KeyWitness(Dedup(ids, Itself), Itself, ids[j]);
  }

  // Keys

  ghost predicate PlainNames(r: Row) {
    '|' !in r.serverId && '|' !in r.hit.file
  }

  /** Where the first bar of a text is decides what is before and after it. */
  lemma FirstBar(a: string, x: string, b: string, y: string)
    requires '|' !in a && '|' !in b && a + "|" + x == b + "|" + y
    ensures a == b && x == y
  {
    var s := a + "|" + x;
    assert s[|a|] == '|' && s[|b|] == '|';
    assert forall i :: 0 <= i < |a| ==> s[i] == a[i] && a[i] in a;
    assert forall i :: 0 <= i < |b| ==> s[i] == b[i] && b[i] in b;
    assert a == s[..|a|] && b == s[..|b|];
    assert x == s[|a| + 1..] && y == s[|b| + 1..];
  }

  /** For names without a bar the key of a row tells its server, file, line and content. */
  lemma KeyIsInjective(r: Row, r': Row)
    requires PlainNames(r) && PlainNames(r') && RowKey(r) == RowKey(r')
    ensures r == r'
  {
    var line, line' := Digits(r.hit.line), Digits(r'.hit.line);
    var tail, tail' := line + "|" + r.hit.content, line' + "|" + r'.hit.content;
    KeyParts(r);
    KeyParts(r');
    FirstBar(r.serverId, r.hit.file + "|" + tail, r'.serverId, r'.hit.file + "|" + tail');
    FirstBar(r.hit.file, tail, r'.hit.file, tail');
    FirstBar(line, r.hit.content, line', r'.hit.content);
    DigitsInjective(r.hit.line, r'.hit.line);
  }

  lemma KeyParts(r: Row)
    ensures RowKey(r) == r.serverId + "|" + (r.hit.file + "|" + (Digits(r.hit.line) + "|" + r.hit.content))
  {
  }

  // When keys collide

  /** `g` is `f`, a bar, the numeral of `n`, and then either nothing or another bar. */
  predicate Extends(f: string, g: string, n: nat) {
    var p := f + "|" + Digits(n);
    p <= g && (|g| == |p| || g[|p|] == '|')
  }

  /** The name `g` can be read as the name `f`, a line number and the beginning of a line. */
  ghost predicate Overlaps(f: string, g: string) {
    exists n: nat :: n >= 1 && Extends(f, g, n) && IsLine(g[|f|..])
  }

  function Tail(n: nat, x: string): string {
    Digits(n) + "|" + x
  }

  lemma DigitsHaveNoBar(n: nat)
    ensures '|' !in Digits(n) && IsLine(Digits(n))
  {
  }

  lemma EqualKeys(id: string, h: Hit, h': Hit)
    ensures RowKey(Row(id, h)) == RowKey(Row(id, h')) <==>
            h.file + "|" + Tail(h.line, h.content) == h'.file + "|" + Tail(h'.line, h'.content)
  {
    var a, b := h.file + "|" + Tail(h.line, h.content), h'.file + "|" + Tail(h'.line, h'.content);
    KeyParts(Row(id, h));
    KeyParts(Row(id, h'));
    var k := |id| + 1;
    assert (id + "|" + a)[k..] == a && (id + "|" + b)[k..] == b;
  }

  /** A numeral and a bar at the start of a text that also starts with `rest` and a bar. */
  lemma NumeralLeads(n: nat, x: string, rest: string, more: string)
    requires Tail(n, x) == rest + "|" + more
    ensures var d := Digits(n);
            && d <= rest && (|rest| == |d| || rest[|d|] == '|')
            && (IsLine(x) ==> IsLine(rest))
  {
    var d, t := Digits(n), Tail(n, x);
    assert t[|rest|] == '|' && t[|d|] == '|';
    assert forall i :: 0 <= i < |d| ==> t[i] == d[i] != '|';
    assert forall i :: 0 <= i < |rest| ==> t[i] == rest[i];
    assert forall i :: 0 <= i < |x| ==> t[|d| + 1 + i] == x[i] && x[i] in x;
  }

  /** Rows of two files of one server that share a key: the longer name reads as a row of the shorter one. */
  lemma SharedKeyOverlaps(id: string, h: Hit, h': Hit)
    requires RealHit(h) && RealHit(h') && h.file != h'.file && |h.file| <= |h'.file|
    requires RowKey(Row(id, h)) == RowKey(Row(id, h'))
    ensures Overlaps(h.file, h'.file)
  {
    var f, g := h.file, h'.file;
    var s, s' := f + "|" + Tail(h.line, h.content), g + "|" + Tail(h'.line, h'.content);
    EqualKeys(id, h, h');
    assert f == s[..|f|] && g == s'[..|g|];
    assert g[|f|] == s[|f|] == '|';
    var rest := g[|f| + 1..];
    assert s[|f| + 1..] == Tail(h.line, h.content);
    assert s'[|f| + 1..] == rest + "|" + Tail(h'.line, h'.content);
    NumeralLeads(h.line, h.content, rest, Tail(h'.line, h'.content));
    assert g == f + "|" + rest && g[|f|..] == "|" + rest;
    assert f + "|" + Digits(h.line) <= g;
    assert Extends(f, g, h.line);
  }

  /** The line of `f` that is taken for line `m` of `g` with content `y`. */
  function Disguise(f: string, g: string, n: nat, m: nat, y: string): string
    requires Extends(f, g, n)
  {
    var k := |f| + 1 + |Digits(n)|;
    (if |g| == k then "" else g[k + 1..] + "|") + Tail(m, y)
  }

  lemma OverlapSharesKey(id: string, f: string, g: string, n: nat, m: nat, y: string)
    requires Extends(f, g, n)
    ensures RowKey(Row(id, Hit(f, n, Disguise(f, g, n, m, y)))) == RowKey(Row(id, Hit(g, m, y)))
  {
    var x, k := Disguise(f, g, n, m, y), |f| + 1 + |Digits(n)|;
    EqualKeys(id, Hit(f, n, x), Hit(g, m, y));
    var p := f + "|" + Digits(n);
    Regroup(f, Digits(n), x);
    if |g| == k {
      assert g == p;
    } else {
      assert g == p + "|" + g[k + 1..];
      Regroup(p, g[k + 1..], Tail(m, y));
    }
  }

  lemma Regroup(a: string, b: string, c: string)
    ensures a + "|" + (b + "|" + c) == a + "|" + b + "|" + c
  {
  }

  lemma DisguiseIsLine(f: string, g: string, n: nat, m: nat, y: string)
    requires Extends(f, g, n) && IsLine(g[|f|..]) && IsLine(y)
    ensures IsLine(Disguise(f, g, n, m, y))
  {
    var k := |f| + 1 + |Digits(n)|;
    DigitsHaveNoBar(m);
    if |g| > k {
      assert forall c :: c in g[k + 1..] ==> c in g[|f|..];
    }
  }

  /**
   Two files of one server: some rows of theirs share a key if and only if one of the names reads
   as a row of the other.
   */
  lemma FilesCollideIff(id: string, f: string, g: string)
    requires f != g
    ensures (exists h, h' :: RealHit(h) && RealHit(h') && h.file == f && h'.file == g && RowKey(Row(id, h)) == RowKey(Row(id, h')))
            <==> Overlaps(f, g) || Overlaps(g, f)
  {
    if h, h' :| RealHit(h) && RealHit(h') && h.file == f && h'.file == g && RowKey(Row(id, h)) == RowKey(Row(id, h')) {
      if |f| <= |g| {
        SharedKeyOverlaps(id, h, h');
      } else {
        SharedKeyOverlaps(id, h', h);
      }
    }
    if n: nat :| n >= 1 && Extends(f, g, n) && IsLine(g[|f|..]) {
      OverlapSharesKey(id, f, g, n, 1, "");
      DisguiseIsLine(f, g, n, 1, "");
      var h, h' := Hit(f, n, Disguise(f, g, n, 1, "")), Hit(g, 1, "");
      assert RealHit(h) && RealHit(h') && h.file == f && h'.file == g;
    }
    if n: nat :| n >= 1 && Extends(g, f, n) && IsLine(f[|g|..]) {
      OverlapSharesKey(id, g, f, n, 1, "");
      DisguiseIsLine(g, f, n, 1, "");
      var h, h' := Hit(f, 1, ""), Hit(g, n, Disguise(g, f, n, 1, ""));
      assert RealHit(h) && RealHit(h') && h.file == f && h'.file == g;
    }
  }

  /** A search of one server, whatever its id, that finds two rows and returns one. */
  lemma BarsCanHideRows(id: string)
    ensures var h, h' := Hit("a.log", 1, "b.log|7|x"), Hit("a.log|1|b.log", 7, "x");
            && RealHit(h) && RealHit(h') && ValidFilename(h.file) && ValidFilename(h'.file)
            && FirstRows([Answer(id, Hits([h, h']))], 500, []) == [Row(id, h)]
  {
    var h, h' := Hit("a.log", 1, "b.log|7|x"), Hit("a.log|1|b.log", 7, "x");
    WitnessKeys(id);
    WitnessNames();
    TwoRows([Answer(id, Hits([h, h']))], Row(id, h), Row(id, h'));
  }

  lemma WitnessKeys(id: string)
    ensures RowKey(Row(id, Hit("a.log", 1, "b.log|7|x"))) == RowKey(Row(id, Hit("a.log|1|b.log", 7, "x")))
  {
    assert Digits(1) == "1" && Digits(7) == "7";
    assert "b.log|7|x" == "b.log" + "|" + Tail(7, "x");
    assert "a.log|1|b.log" == "a.log" + "|" + Tail(1, "b.log");
    NestedNames(id, "a.log", 1, "b.log", 7, "x");
  }

  lemma NestedNames(id: string, f: string, n: nat, rest: string, m: nat, x: string)
    ensures RowKey(Row(id, Hit(f, n, rest + "|" + Tail(m, x)))) == RowKey(Row(id, Hit(f + "|" + Tail(n, rest), m, x)))
  {
    EqualKeys(id, Hit(f, n, rest + "|" + Tail(m, x)), Hit(f + "|" + Tail(n, rest), m, x));
    Regroup(Digits(n), rest, Tail(m, x));
    Regroup(f, Tail(n, rest), Tail(m, x));
  }

  lemma WitnessNames()
    ensures ValidFilename("a.log") && ValidFilename("a.log|1|b.log")
  {
    var f, g := "a.log", "a.log|1|b.log";
    assert f[1..] == ".log" && g[9..] == ".log";
    NoDots(f);
    NoDots(g);
  }

  lemma NoDots(name: string)
    requires forall i :: 0 <= i < |name| - 1 ==> name[i] != '.' || name[i + 1] != '.'
    ensures !Includes(name, "..")
  {
    forall i: nat
      ensures !OccursAt(name, "..", i)
    {
      if i + 2 <= |name| {
        assert name[i..i + 2][0] == name[i] && name[i..i + 2][1] == name[i + 1];
      }
    }
  }

  lemma TwoRows(answers: seq<Answer>, r: Row, r': Row)
    requires |answers| == 1 && RowsOf(answers[0]) == [r, r'] && RowKey(r) == RowKey(r')
    ensures FirstRows(answers, 500, []) == [r]
  {
    var lists := RowLists(answers);
    FlattenStep(lists, 0);
    assert lists[..1] == lists && Flatten(lists[..1]) == [] + [r, r'] == [r] + [r'];
    SecondIsDropped(r, r');
    assert ProjectAll([r], []) == [r];
  }

  lemma SecondIsDropped(r: Row, r': Row)
    requires RowKey(r) == RowKey(r')
    ensures Dedup([r] + [r'], RowKey) == [r]
  {
    var none: seq<Row> := [];
    assert none + [r] == [r];
    DedupSnoc(none, r, RowKey);
    DedupSnoc([r], r', RowKey);
  }

  // When nothing repeats

  ghost predicate PlainFiles(files: seq<LogFile>) {
    DistinctNames(files) && forall f, g :: f in files && g in files ==> !Overlaps(f.name, g.name)
  }

  lemma FilterKeepsPlain(files: seq<LogFile>, startMs: Option<int>, endMs: Option<int>)
    requires PlainFiles(files)
    ensures PlainFiles(FilterFiles(files, startMs, endMs))
    ensures forall f :: f in FilterFiles(files, startMs, endMs) ==> f in files
  {
    FilterKeepsNames(files, startMs, endMs);
  }

  lemma {:induction false} FilterKeepsNames(files: seq<LogFile>, startMs: Option<int>, endMs: Option<int>)
    requires DistinctNames(files)
    ensures DistinctNames(FilterFiles(files, startMs, endMs))
    ensures forall f :: f in FilterFiles(files, startMs, endMs) ==> f in files
  {
    if files != [] {
      var n := |files| - 1;
      var front := FilterFiles(files[..n], startMs, endMs);
      FilterKeepsNames(files[..n], startMs, endMs);
      assert forall f :: f in front ==> f in files[..n] && f.name != files[n].name;
      NamesSnoc(front, files[n]);
    }
  }

  lemma NamesSnoc(files: seq<LogFile>, last: LogFile)
    requires DistinctNames(files) && forall f :: f in files ==> f.name != last.name
    ensures DistinctNames(files + [last])
  {
    var all := files + [last];
    forall i, j | 0 <= i < j < |all|
      ensures all[i].name != all[j].name
    {
      assert all[i] == files[i] && files[i] in files;
    }
  }

  ghost predicate PlainHits(hits: seq<Hit>) {
    && NoRepeats(hits, Place) && (forall h :: h in hits ==> RealHit(h))
    && forall g, h :: g in hits && h in hits ==> !Overlaps(g.file, h.file)
  }

  lemma OutcomeIsPlain(files: seq<LogFile>, q: Query, maxResults: int)
    requires PlainFiles(files)
    ensures var o := FilesOutcome(files, q, maxResults); o.Hits? ==> PlainHits(o.hits)
  {
    var all := HitsBefore(files, |files|, q);
    PlacesDoNotRepeat(files, |files|, q);
    HitsNameTheirFile(files, |files|, q);
    HitsAreReal(files, |files|, q);
    if 0 <= maxResults < |all| {
      NoRepeatsPrefix(all, maxResults, Place);
    }
  }

  lemma ServerIsPlain(l: Listing, input: Input, maxPerServer: int)
    requires l.Listed? ==> PlainFiles(l.files)
    ensures var o := ServerOutcome(l, input, maxPerServer); o.Hits? ==> PlainHits(o.hits)
  {
    if l.Listed? {
      FilterKeepsPlain(l.files, input.startMs, input.endMs);
      OutcomeIsPlain(FilterFiles(l.files, input.startMs, input.endMs), input.query, maxPerServer);
    }
  }

  /** When neither name reads as a row of the other, rows that share a key are of one place. */
  lemma SameKeySamePlace(id: string, h: Hit, h': Hit)
    requires RealHit(h) && RealHit(h') && !Overlaps(h.file, h'.file) && !Overlaps(h'.file, h.file)
    requires RowKey(Row(id, h)) == RowKey(Row(id, h'))
    ensures Place(h) == Place(h')
  {
    if h.file != h'.file {
      if |h.file| <= |h'.file| {
        SharedKeyOverlaps(id, h, h');
      } else {
        SharedKeyOverlaps(id, h', h);
      }
    } else {
      EqualKeys(id, h, h');
      var k, t, t' := |h.file| + 1, Tail(h.line, h.content), Tail(h'.line, h'.content);
      assert (h.file + "|" + t)[k..] == t && (h.file + "|" + t')[k..] == t';
      FirstBar(Digits(h.line), h.content, Digits(h'.line), h'.content);
      DigitsInjective(h.line, h'.line);
    }
  }

  lemma {:induction false} TaggedDoNotRepeat(id: string, hits: seq<Hit>)
    requires PlainHits(hits)
    ensures NoRepeats(Tag(id, hits), RowKey)
  {
    if hits != [] {
      var n := |hits| - 1;
      var front, row := Tag(id, hits[..n]), Row(id, hits[n]);
      TaggedDoNotRepeat(id, hits[..n]);
      assert Tag(id, hits) == front + [row];
      if RowKey(row) in KeysOf(front, RowKey) {
        var i := KeyWitness(front, RowKey, RowKey(row));
        SameKeySamePlace(id, hits[i], hits[n]);
        KeyOfElement(hits[..n], Place, i);
      }
      NoRepeatsSnoc(front, row, RowKey);
    }
  }

  ghost predicate PlainAnswers(answers: seq<Answer>) {
    && (forall i, j :: 0 <= i < j < |answers| ==> answers[i].serverId != answers[j].serverId)
    && (forall a :: a in answers ==> PlainAnswer(a))
  }

  ghost predicate PlainAnswer(a: Answer) {
    a.outcome.Hits? && a.outcome.hits != [] ==> '|' !in a.serverId && PlainHits(a.outcome.hits)
  }

  lemma {:induction false} RowsNameTheirServer(answers: seq<Answer>, k: nat)
    requires k <= |answers| && PlainAnswers(answers)
    ensures forall r :: r in Flatten(RowLists(answers)[..k]) ==>
                          '|' !in r.serverId && exists j :: 0 <= j < k && answers[j].serverId == r.serverId
    decreases k
  {
    if k > 0 {
      RowsNameTheirServer(answers, k - 1);
      FlattenStep(RowLists(answers), k - 1);
      assert PlainAnswer(answers[k - 1]);
    }
  }

  lemma KeysAreApart(a: seq<Row>, b: seq<Row>)
    requires forall r :: r in a || r in b ==> '|' !in r.serverId
    requires forall r, r' :: r in a && r' in b ==> r.serverId != r'.serverId
    ensures KeysOf(a, RowKey) !! KeysOf(b, RowKey)
  {
    forall k | k in KeysOf(a, RowKey)
      ensures k !in KeysOf(b, RowKey)
    {
      if k in KeysOf(b, RowKey) {
        var i := KeyWitness(a, RowKey, k);
        var j := KeyWitness(b, RowKey, k);
        assert a[i] in a && b[j] in b;
        KeyTellsServer(a[i], b[j]);
      }
    }
  }

  lemma KeyTellsServer(r: Row, r': Row)
    requires '|' !in r.serverId && '|' !in r'.serverId && RowKey(r) == RowKey(r')
    ensures r.serverId == r'.serverId
  {
    KeyParts(r);
    KeyParts(r');
    FirstBar(r.serverId, r.hit.file + "|" + Tail(r.hit.line, r.hit.content),
             r'.serverId, r'.hit.file + "|" + Tail(r'.hit.line, r'.hit.content));
  }

  lemma ServerIsApart(answers: seq<Answer>, k: nat)
    requires k < |answers| && PlainAnswers(answers)
    ensures NoRepeats(RowsOf(answers[k]), RowKey)
    ensures KeysOf(Flatten(RowLists(answers)[..k]), RowKey) !! KeysOf(RowsOf(answers[k]), RowKey)
  {
    var a := answers[k];
    assert PlainAnswer(a);
    if a.outcome.Hits? && a.outcome.hits != [] {
      TaggedDoNotRepeat(a.serverId, a.outcome.hits);
      RowsNameTheirServer(answers, k);
      KeysAreApart(Flatten(RowLists(answers)[..k]), RowsOf(a));
    }
  }

  lemma {:induction false} RowsDoNotRepeat(answers: seq<Answer>, k: nat)
    requires k <= |answers| && PlainAnswers(answers)
    ensures NoRepeats(Flatten(RowLists(answers)[..k]), RowKey)
    decreases k
  {
    if k > 0 {
      var front, last := Flatten(RowLists(answers)[..k - 1]), RowsOf(answers[k - 1]);
      RowsDoNotRepeat(answers, k - 1);
      ServerIsApart(answers, k - 1);
      FlattenStep(RowLists(answers), k - 1);
      NoRepeatsConcat(front, last, RowKey);
    }
  }

  /**
   For distinct ids, when the listed servers have ids without a bar and distinct file names of
   which none reads as a row of another, dropping repeated rows drops nothing: the search returns
   the first rows of all rows in server, file and line order.
   */
  lemma NothingIsDropped(ids: seq<string>, listing: string -> Listing, input: Input, maxTotal: int, fields: seq<Field>)
    requires forall i, j :: 0 <= i < j < |ids| ==> ids[i] != ids[j]
    requires forall id :: id in ids && listing(id).Listed? ==> '|' !in id && PlainFiles(listing(id).files)
    ensures var answers := Answers(ids, listing, input);
            FirstRows(answers, maxTotal, fields) == ProjectAll(Take(Flatten(RowLists(answers)), maxTotal), fields)
  {
    var answers := Answers(ids, listing, input);
    forall a | a in answers
      ensures PlainAnswer(a)
    {
      ServerIsPlain(listing(a.serverId), input, PerServer(input));
    }
    RowsDoNotRepeat(answers, |answers|);
    assert RowLists(answers)[..|answers|] == RowLists(answers);
    DedupOfDistinct(Flatten(RowLists(answers)), RowKey);
  }

  // The condition is exact

  predicate Named(files: seq<LogFile>, names: seq<string>) {
    |files| == |names| && forall i :: 0 <= i < |names| ==> files[i].name == names[i]
  }

  /** No two rows that the search finds on one server share a key. */
  predicate KeysTellRows(id: string, files: seq<LogFile>, q: Query, maxResults: int) {
    NoRepeats(RowsOf(Answer(id, FilesOutcome(files, q, maxResults))), RowKey)
  }

  /**
   The names of the files of a server decide whether repeated rows can hide others there: they
   never do, for any content, query and limit, if and only if no name reads as a row of another.
   */
  lemma KeysTellRowsIff(id: string, names: seq<string>)
    requires forall i, j :: 0 <= i < j < |names| ==> names[i] != names[j]
    requires forall i :: 0 <= i < |names| ==> ValidFilename(names[i])
    ensures (forall files, q, maxResults :: Named(files, names) ==> KeysTellRows(id, files, q, maxResults))
            <==> forall f, g :: f in names && g in names ==> !Overlaps(f, g)
  {
    if forall f, g :: f in names && g in names ==> !Overlaps(f, g) {
      forall files, q, maxResults | Named(files, names)
        ensures KeysTellRows(id, files, q, maxResults)
      {
        PlainNamesTellRows(id, files, q, maxResults);
      }
    } else {
      var f, g :| f in names && g in names && Overlaps(f, g);
      var i: nat :| i < |names| && names[i] == f;
      var j: nat :| j < |names| && names[j] == g;
      var files, q := OverlapHidesRow(id, names, i, j);
    }
  }

  lemma PlainNamesTellRows(id: string, files: seq<LogFile>, q: Query, maxResults: int)
    requires PlainFiles(files)
    ensures KeysTellRows(id, files, q, maxResults)
  {
    OutcomeIsPlain(files, q, maxResults);
    var o := FilesOutcome(files, q, maxResults);
    if o.Hits? {
      TaggedDoNotRepeat(id, o.hits);
    }
  }

  /** The last of `n` lines is `x`; the others are empty. */
  function Numbered(n: nat, x: string): (lines: seq<string>)
    requires n >= 1
    ensures |lines| == n && lines[n - 1] == x
    ensures IsLine(x) ==> forall i :: 0 <= i < n ==> IsLine(lines[i])
  {
    seq(n - 1, i => "") + [x]
  }

  function OnlyFiles(names: seq<string>, i: nat, text: string, j: nat, text': string): (files: seq<LogFile>)
    ensures Named(files, names)
  {
    seq(|names|, k requires 0 <= k < |names| =>
      LogFile(names[k], None, if k == i then Some(text) else if k == j then Some(text') else None))
  }

  /** One file holds a line that is taken for the only line of the other; both hold what is searched. */
  lemma OverlapHidesRow(id: string, names: seq<string>, i: nat, j: nat) returns (files: seq<LogFile>, q: Query)
    requires i < |names| && j < |names| && Overlaps(names[i], names[j])
    requires forall k :: 0 <= k < |names| ==> ValidFilename(names[k])
    ensures Named(files, names) && !KeysTellRows(id, files, q, |HitsBefore(files, |files|, q)|)
  {
    var f, g := names[i], names[j];
    var n: nat :| n >= 1 && Extends(f, g, n) && IsLine(g[|f|..]);
    var x := Disguise(f, g, n, 1, "q");
    q := Query("q", true, []);
    OverlapSharesKey(id, f, g, n, 1, "q");
    DisguiseIsLine(f, g, n, 1, "q");
    DisguiseEnds(f, g, n);
    files := OnlyFiles(names, i, Join(Numbered(n, x)), j, "q");
    LinesShareKey(id, files, q, i, n, x, j);
  }

  lemma DisguiseEnds(f: string, g: string, n: nat)
    requires Extends(f, g, n)
    ensures EndsWith(Disguise(f, g, n, 1, "q"), "q")
  {
  }

  lemma LinesShareKey(id: string, files: seq<LogFile>, q: Query, i: nat, n: nat, x: string, j: nat)
    requires q == Query("q", true, []) && n >= 1 && IsLine(x) && EndsWith(x, "q")
    requires i < |files| && j < |files| && files[i].name != files[j].name
    requires files[i].content == Some(Join(Numbered(n, x))) && files[j].content == Some("q")
    requires RowKey(Row(id, Hit(files[i].name, n, x))) == RowKey(Row(id, Hit(files[j].name, 1, "q")))
    requires forall f :: f in files ==> ValidFilename(f.name)
    ensures !KeysTellRows(id, files, q, |HitsBefore(files, |files|, q)|)
  {
    LastLineIsFound(files[i], n, x, q);
    assert Join(Numbered(1, "q")) == "q";
    LastLineIsFound(files[j], 1, "q", q);
    SharedKeyRepeats(id, files, q, i, Hit(files[i].name, n, x), j, Hit(files[j].name, 1, "q"));
  }

  lemma LastLineIsFound(f: LogFile, n: nat, x: string, q: Query)
    requires n >= 1 && IsLine(x) && EndsWith(x, q.text) && q.caseSensitive && q.fields == []
    requires f.content == Some(Join(Numbered(n, x)))
    ensures Hit(f.name, n, x) in FileHits(f, q)
  {
    SplitJoin(Numbered(n, x));
    LineIsReportedIff(f, n - 1, q);
    assert OccursAt(x, q.text, |x| - |q.text|);
  }

  lemma SharedKeyRepeats(id: string, files: seq<LogFile>, q: Query, i: nat, h: Hit, j: nat, h': Hit)
    requires i < |files| && j < |files| && h in FileHits(files[i], q) && h' in FileHits(files[j], q)
    requires h != h' && RowKey(Row(id, h)) == RowKey(Row(id, h')) && q.text != ""
    requires forall f :: f in files ==> ValidFilename(f.name)
    ensures !KeysTellRows(id, files, q, |HitsBefore(files, |files|, q)|)
  {
    var hits := HitsBefore(files, |files|, q);
    HitIsKept(files, |files|, q, i, h);
    HitIsKept(files, |files|, q, j, h');
    AllAreFound(files, q);
    TwinsRepeat(id, hits, h, h');
  }

  /** With accepted names and room for all hits, all are found. */
  lemma AllAreFound(files: seq<LogFile>, q: Query)
    requires q.text != "" && forall f :: f in files ==> ValidFilename(f.name)
    ensures var hits := HitsBefore(files, |files|, q); FilesOutcome(files, q, |hits|) == Hits(hits)
  {
  }

  lemma TwinsRepeat(id: string, hits: seq<Hit>, h: Hit, h': Hit)
    requires h in hits && h' in hits && h != h' && RowKey(Row(id, h)) == RowKey(Row(id, h'))
    ensures !NoRepeats(Tag(id, hits), RowKey)
  {
    var rows := Tag(id, hits);
    var a: nat :| a < |hits| && hits[a] == h;
    var b: nat :| b < |hits| && hits[b] == h';
    if NoRepeats(rows, RowKey) {
      if a < b {
        NoRepeatsMeans(rows, RowKey, a, b);
      } else {
        NoRepeatsMeans(rows, RowKey, b, a);
      }
    }
  }
}
