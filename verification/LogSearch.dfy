/** Keyword search over the log files of one server. */
module LogSearch {
  import opened Collections
  import opened Text
  import opened FirstOccurrence

  datatype Field = Content | File

  /** A listed file; its content is None when it cannot be read. */
  datatype LogFile = LogFile(name: string, modifiedMs: Option<int>, content: Option<string>)

  /** What listing the log directory of a server gives. */
  datatype Listing = Unlistable | Listed(files: seq<LogFile>)

  datatype Query = Query(text: string, caseSensitive: bool, fields: seq<Field>)

  datatype Hit = Hit(file: string, line: nat, content: string)

  datatype Outcome = Rejected | Hits(hits: seq<Hit>)

  datatype Input = Input(
    query: Query,
    serverIds: seq<string>,
    maxPerServer: Option<int>,
    maxTotal: Option<int>,
    startMs: Option<int>,
    endMs: Option<int>)

  // Matching

  predicate OccursAt(s: string, part: string, i: nat) {
    i + |part| <= |s| && s[i..i + |part|] == part
  }

  predicate Includes(s: string, part: string) {
    exists i :: 0 <= i <= |s| && OccursAt(s, part, i)
  }

  predicate EndsWith(s: string, end: string) {
    |end| <= |s| && s[|s| - |end|..] == end
  }

  function LowerChar(c: char): char {
    if 'A' <= c <= 'Z' then (c as int + 32) as char else c
  }

  function Lower(s: string): string {
    seq(|s|, i requires 0 <= i < |s| => LowerChar(s[i]))
  }

  predicate MatchQuery(target: string, q: Query) {
    if q.caseSensitive then Includes(target, q.text) else Includes(Lower(target), Lower(q.text))
  }

  predicate ValidFilename(name: string) {
    && name != "" && '/' !in name && '\\' !in name && !Includes(name, "..")
    && (EndsWith(name, ".log") || EndsWith(name, ".log.gz") || EndsWith(name, ".txt"))
  }

  /** No field given means the content. */
  function SearchedFields(q: Query): seq<Field> {
    if q.fields == [] then [Content] else q.fields
  }

  predicate IsHit(name: string, line: string, q: Query) {
    || (Content in SearchedFields(q) && MatchQuery(line, q))
    || (File in SearchedFields(q) && MatchQuery(name, q))
  }

  function Matcher(name: string, q: Query): string -> bool {
    line => IsHit(name, line, q)
  }

  // The plain meaning

  /** The matching lines in line order, numbered from 1. */
  function LineHits(name: string, lines: seq<string>, matches: string -> bool): seq<Hit> {
    if lines == [] then []
    else
      var n := |lines| - 1;
      LineHits(name, lines[..n], matches) + if matches(lines[n]) then [Hit(name, n + 1, lines[n])] else []
  }

  function FileHits(f: LogFile, q: Query): seq<Hit> {
    if f.content.None? then [] else LineHits(f.name, Split(f.content.value), Matcher(f.name, q))
  }

  function HitLists(files: seq<LogFile>, q: Query): (r: seq<seq<Hit>>)
    ensures |r| == |files|
  {
    seq(|files|, i requires 0 <= i < |files| => FileHits(files[i], q))
  }

  /** The hits of the first `k` files, in file and line order. */
  function HitsBefore(files: seq<LogFile>, k: nat, q: Query): seq<Hit>
    requires k <= |files|
  {
    Flatten(HitLists(files, q)[..k])
  }

  /** A file with a refused name is reached before enough hits are found. */
  predicate MeetsBadName(files: seq<LogFile>, q: Query, maxResults: int) {
    exists j :: 0 <= j < |files| && !ValidFilename(files[j].name) && |HitsBefore(files, j, q)| < maxResults
  }

  /** The first `maxResults` hits, unless the search meets a refused name on its way to them. */
  function FilesOutcome(files: seq<LogFile>, q: Query, maxResults: int): Outcome {
    if q.text == "" then Hits([])
    else if MeetsBadName(files, q, maxResults) then Rejected
    else Hits(Take(HitsBefore(files, |files|, q), maxResults))
  }

  predicate ModifiedWithin(f: LogFile, startMs: Option<int>, endMs: Option<int>) {
    f.modifiedMs.Some? ==>
      && (startMs.Some? ==> startMs.value <= f.modifiedMs.value)
      && (endMs.Some? ==> f.modifiedMs.value <= endMs.value)
  }

  function FilterFiles(files: seq<LogFile>, startMs: Option<int>, endMs: Option<int>): seq<LogFile> {
    if files == [] then []
    else
      var n := |files| - 1;
      FilterFiles(files[..n], startMs, endMs) + if ModifiedWithin(files[n], startMs, endMs) then [files[n]] else []
  }

  function ServerOutcome(l: Listing, input: Input, maxPerServer: int): Outcome {
    if l.Unlistable? then Hits([])
    else FilesOutcome(FilterFiles(l.files, input.startMs, input.endMs), input.query, maxPerServer)
  }

  // The search as the service runs it

  /** Nested loops with an early stop; a refused file name rejects the whole search. */
  method SearchLogFiles(files: seq<LogFile>, q: Query, maxResults: int) returns (r: Outcome)
    ensures r == FilesOutcome(files, q, maxResults)
  {
    if q.text == "" {
      return Hits([]);
    }
    var results: seq<Hit> := [];
    var k, ok := 0, true;
    while k < |files| && |results| < maxResults
      invariant 0 <= k <= |files|
      invariant SearchedUpto(files, k, q, maxResults, results)
    {
      results, ok := SearchNext(files, k, q, results, maxResults);
      if !ok {
        return Rejected;
      }
      k := k + 1;
    }
    EarlyStopIsFinal(files, k, q, maxResults);
    return Hits(results);
  }

  /** The names of the first `k` files are not refused, and their hits are found. */
  ghost predicate SearchedUpto(files: seq<LogFile>, k: nat, q: Query, maxResults: int, results: seq<Hit>)
    requires k <= |files|
  {
    ValidNames(files, k) && results == Take(HitsBefore(files, k, q), maxResults)
  }

  ghost predicate ValidNames(files: seq<LogFile>, k: nat)
    requires k <= |files|
  {
    forall j :: 0 <= j < k ==> ValidFilename(files[j].name)
  }

  /** Checks the name of file `k`, then searches it. */
  method SearchNext(files: seq<LogFile>, k: nat, q: Query, found: seq<Hit>, maxResults: int)
    returns (results: seq<Hit>, ok: bool)
    requires k < |files| && |found| < maxResults && SearchedUpto(files, k, q, maxResults, found)
    ensures if ok then SearchedUpto(files, k + 1, q, maxResults, results) else MeetsBadName(files, q, maxResults)
  {
    TakeAll(HitsBefore(files, k, q), maxResults);
    results, ok := found, ValidFilename(files[k].name);
    if !ok {
      BadNameIsMet(files, k, q, maxResults);
    } else {
      NextFile(files, k, q);
      results := ScanFile(files[k], q, found, maxResults);
    }
  }

  lemma NextFile(files: seq<LogFile>, k: nat, q: Query)
    requires k < |files|
    ensures HitsBefore(files, k + 1, q) == HitsBefore(files, k, q) + FileHits(files[k], q)
  {
    FlattenStep(HitLists(files, q), k);
  }

  lemma BadNameIsMet(files: seq<LogFile>, k: nat, q: Query, maxResults: int)
    requires k < |files| && !ValidFilename(files[k].name) && |HitsBefore(files, k, q)| < maxResults
    ensures MeetsBadName(files, q, maxResults)
  {
  }

  lemma EarlyStopIsFinal(files: seq<LogFile>, k: nat, q: Query, maxResults: int)
    requires k <= |files| && (k == |files| || |HitsBefore(files, k, q)| >= maxResults)
    requires ValidNames(files, k)
    ensures Take(HitsBefore(files, k, q), maxResults) == Take(HitsBefore(files, |files|, q), maxResults)
    ensures !MeetsBadName(files, q, maxResults)
  {
    FlattenPrefix(HitLists(files, q), k, |files|);
    forall j | k <= j < |files|
      ensures |HitsBefore(files, j, q)| >= maxResults
    {
      FlattenPrefix(HitLists(files, q), k, j);
    }
  }

  /** Adds the hits of one file to `found`; a file that cannot be read is skipped. */
  method ScanFile(f: LogFile, q: Query, found: seq<Hit>, maxResults: int) returns (results: seq<Hit>)
    requires |found| < maxResults
    ensures results == Take(found + FileHits(f, q), maxResults)
  {
    results := found;
    if f.content.Some? {
      results := ScanLines(f.name, Split(f.content.value), Matcher(f.name, q), found, maxResults);
    }
  }

  method ScanLines(name: string, lines: seq<string>, matches: string -> bool, found: seq<Hit>, maxResults: int)
    returns (results: seq<Hit>)
    requires |found| < maxResults
    ensures results == Take(found + LineHits(name, lines, matches), maxResults)
  {
    results := found;
    ghost var hits: seq<Hit> := [];
    var i := 0;
    while i < |lines| && |results| < maxResults
      invariant 0 <= i <= |lines|
      invariant hits == LineHits(name, lines[..i], matches)
      invariant results == found + hits && |results| <= maxResults
    {
      LineHitsStep(name, lines, i, matches);
      if matches(lines[i]) {
        results := results + [Hit(name, i + 1, lines[i])];
        hits := hits + [Hit(name, i + 1, lines[i])];
      }
      i := i + 1;
    }
    LineHitsPrefix(name, lines, i, matches);
    TakeOfPrefix(found, hits, LineHits(name, lines, matches), maxResults);
  }

  lemma TakeOfPrefix(found: seq<Hit>, hits: seq<Hit>, all: seq<Hit>, maxResults: int)
    requires hits <= all && |found + hits| <= maxResults && (hits == all || |found + hits| == maxResults)
    ensures found + hits == Take(found + all, maxResults)
  {
  }

  lemma LineHitsStep(name: string, lines: seq<string>, i: nat, matches: string -> bool)
    requires i < |lines|
    ensures var hits := LineHits(name, lines[..i], matches);
            LineHits(name, lines[..i + 1], matches) ==
            if matches(lines[i]) then hits + [Hit(name, i + 1, lines[i])] else hits
  {
    assert lines[..i + 1][..i] == lines[..i];
    assert LineHits(name, lines[..i], matches) + [] == LineHits(name, lines[..i], matches);
  }

  lemma {:induction false} LineHitsPrefix(name: string, lines: seq<string>, i: nat, matches: string -> bool)
    requires i <= |lines|
    ensures LineHits(name, lines[..i], matches) <= LineHits(name, lines, matches)
    ensures i == |lines| ==> lines[..i] == lines
  {
    if i < |lines| {
      var n := |lines| - 1;
      LineHitsPrefix(name, lines[..n], i, matches);
      assert lines[..n][..i] == lines[..i];
    } else {
      assert lines[..i] == lines;
    }
  }

  method SearchSingleServer(l: Listing, input: Input, maxPerServer: int) returns (r: Outcome)
    ensures r == ServerOutcome(l, input, maxPerServer)
  {
    if l.Unlistable? || |l.files| == 0 {
      return Hits([]);
    }
    var files := FilterFiles(l.files, input.startMs, input.endMs);
    if |files| == 0 {
      return Hits([]);
    }
    r := SearchLogFiles(files, input.query, maxPerServer);
  }

  // What the hits are

  /** A line of a file is reported exactly when it matches, under its own number. */
  lemma LineIsReportedIff(f: LogFile, i: nat, q: Query)
    requires f.content.Some? && i < |Split(f.content.value)|
    ensures var line := Split(f.content.value)[i];
            Hit(f.name, i + 1, line) in FileHits(f, q) <==> IsHit(f.name, line, q)
  {
    LineIsHitIff(f.name, Split(f.content.value), i, Matcher(f.name, q));
  }

  lemma {:induction false} LineIsHitIff(name: string, lines: seq<string>, i: nat, matches: string -> bool)
    requires i < |lines|
    ensures Hit(name, i + 1, lines[i]) in LineHits(name, lines, matches) <==> matches(lines[i])
  {
    var n := |lines| - 1;
    if i < n {
      LineIsHitIff(name, lines[..n], i, matches);
    } else {
      LineNumbersAreBounded(name, lines[..n], matches);
    }
  }

  lemma {:induction false} LineNumbersAreBounded(name: string, lines: seq<string>, matches: string -> bool)
    ensures forall h :: h in LineHits(name, lines, matches) ==> h.file == name && 1 <= h.line <= |lines|
  {
    if lines != [] {
      LineNumbersAreBounded(name, lines[..|lines| - 1], matches);
    }
  }

  /** What every hit is: a numbered line, without line breaks. */
  predicate RealHit(h: Hit) {
    h.line >= 1 && IsLine(h.content)
  }

  lemma {:induction false} LineHitsAreReal(name: string, lines: seq<string>, matches: string -> bool)
    requires forall i :: 0 <= i < |lines| ==> IsLine(lines[i])
    ensures forall h :: h in LineHits(name, lines, matches) ==> RealHit(h)
  {
    if lines != [] {
      LineHitsAreReal(name, lines[..|lines| - 1], matches);
    }
  }

  lemma {:induction false} HitsAreReal(files: seq<LogFile>, k: nat, q: Query)
    requires k <= |files|
    ensures forall h :: h in HitsBefore(files, k, q) ==> RealHit(h)
    decreases k
  {
    if k > 0 {
      var f := files[k - 1];
      HitsAreReal(files, k - 1, q);
      FlattenStep(HitLists(files, q), k - 1);
      if f.content.Some? {
        SplitYieldsLines(f.content.value);
        LineHitsAreReal(f.name, Split(f.content.value), Matcher(f.name, q));
      }
    }
  }

  lemma {:induction false} HitIsKept(files: seq<LogFile>, k: nat, q: Query, j: nat, h: Hit)
    requires j < k <= |files| && h in FileHits(files[j], q)
    ensures h in HitsBefore(files, k, q)
    decreases k
  {
    FlattenStep(HitLists(files, q), k - 1);
    if j < k - 1 {
      HitIsKept(files, k - 1, q, j, h);
    }
  }

  /** A file is searched exactly when its time is unknown or within the bounds that are given. */
  lemma {:induction false} FileIsSearchedIff(files: seq<LogFile>, f: LogFile, startMs: Option<int>, endMs: Option<int>)
    ensures f in FilterFiles(files, startMs, endMs) <==> f in files && ModifiedWithin(f, startMs, endMs)
  {
    if files != [] {
      var n := |files| - 1;
      FileIsSearchedIff(files[..n], f, startMs, endMs);
      assert files == files[..n] + [files[n]];
    }
  }

  function Place(h: Hit): (string, nat) {
    (h.file, h.line)
  }

  lemma {:induction false} LinesDoNotRepeat(name: string, lines: seq<string>, matches: string -> bool)
    ensures NoRepeats(LineHits(name, lines, matches), Place)
  {
    if lines != [] {
      var n := |lines| - 1;
      var front := LineHits(name, lines[..n], matches);
      LinesDoNotRepeat(name, lines[..n], matches);
      LineNumbersAreBounded(name, lines[..n], matches);
      if matches(lines[n]) {
        PlacesComeFromHits(front);
        NoRepeatsSnoc(front, Hit(name, n + 1, lines[n]), Place);
      } else {
        assert LineHits(name, lines, matches) == front;
      }
    }
  }

  lemma PlacesComeFromHits(hits: seq<Hit>)
    ensures forall p :: p in KeysOf(hits, Place) ==> exists i :: 0 <= i < |hits| && Place(hits[i]) == p
  {
    forall p | p in KeysOf(hits, Place)
      ensures exists i :: 0 <= i < |hits| && Place(hits[i]) == p
    {
      var i := KeyWitness(hits, Place, p);
    }
  }

  ghost predicate DistinctNames(files: seq<LogFile>) {
    forall i, j :: 0 <= i < j < |files| ==> files[i].name != files[j].name
  }

  lemma {:induction false} HitsNameTheirFile(files: seq<LogFile>, k: nat, q: Query)
    requires k <= |files|
    ensures forall h :: h in HitsBefore(files, k, q) ==> exists j :: 0 <= j < k && files[j].name == h.file
    decreases k
  {
    if k > 0 {
      HitsNameTheirFile(files, k - 1, q);
      FlattenStep(HitLists(files, q), k - 1);
      FileHitsNameTheFile(files[k - 1], q);
    }
  }

  lemma FileHitsNameTheFile(f: LogFile, q: Query)
    ensures forall h :: h in FileHits(f, q) ==> h.file == f.name
    ensures NoRepeats(FileHits(f, q), Place)
  {
    if f.content.Some? {
      LineNumbersAreBounded(f.name, Split(f.content.value), Matcher(f.name, q));
      LinesDoNotRepeat(f.name, Split(f.content.value), Matcher(f.name, q));
    }
  }

  /** With distinct file names no place is reported twice. */
  lemma {:induction false} PlacesDoNotRepeat(files: seq<LogFile>, k: nat, q: Query)
    requires k <= |files| && DistinctNames(files)
    ensures NoRepeats(HitsBefore(files, k, q), Place)
    decreases k
  {
    if k > 0 {
      var front, last := HitsBefore(files, k - 1, q), FileHits(files[k - 1], q);
      PlacesDoNotRepeat(files, k - 1, q);
      FlattenStep(HitLists(files, q), k - 1);
      FileHitsNameTheFile(files[k - 1], q);
      HitsNameTheirFile(files, k - 1, q);
      PlacesAreApart(front, last);
      NoRepeatsConcat(front, last, Place);
    }
  }

  lemma PlacesAreApart(a: seq<Hit>, b: seq<Hit>)
    requires forall g, h :: g in a && h in b ==> g.file != h.file
    ensures KeysOf(a, Place) !! KeysOf(b, Place)
  {
    PlacesComeFromHits(a);
    PlacesComeFromHits(b);
  }
}
