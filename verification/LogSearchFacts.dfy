/** What a search looks for and where, in terms of single characters and times. */
module LogSearchFacts {
  import opened Collections
  import opened Text
  import opened FirstOccurrence
  import opened LogSearch
  import opened LogAggregate

  // Matching

  /** The two forms of one ASCII letter. */
  predicate IsCapitalOf(a: char, b: char) {
    'A' <= a <= 'Z' && b as int == a as int - 'A' as int + 'a' as int
  }

  predicate Same(a: char, b: char, caseSensitive: bool) {
    a == b || (!caseSensitive && (IsCapitalOf(a, b) || IsCapitalOf(b, a)))
  }

  predicate StandsAt(target: string, text: string, i: nat, caseSensitive: bool) {
    i + |text| <= |target| && forall k :: 0 <= k < |text| ==> Same(target[i + k], text[k], caseSensitive)
  }

  /** The text stands somewhere in the target. */
  ghost predicate Contains(target: string, text: string, caseSensitive: bool) {
    exists i: nat :: StandsAt(target, text, i, caseSensitive)
  }

  lemma LowerIff(a: char, b: char)
    ensures LowerChar(a) == LowerChar(b) <==> Same(a, b, false)
  {
  }

  lemma OccursIff(s: string, part: string, i: nat)
    ensures OccursAt(s, part, i) <==> i + |part| <= |s| && forall k :: 0 <= k < |part| ==> s[i + k] == part[k]
  {
    if i + |part| <= |s| {
      var piece := s[i..i + |part|];
      assert forall k :: 0 <= k < |part| ==> piece[k] == s[i + k];
    }
  }

  lemma StandsIff(target: string, q: Query, i: nat)
    ensures StandsAt(target, q.text, i, q.caseSensitive) <==>
            if q.caseSensitive then OccursAt(target, q.text, i) else OccursAt(Lower(target), Lower(q.text), i)
  {
    OccursIff(target, q.text, i);
    OccursIff(Lower(target), Lower(q.text), i);
    if !q.caseSensitive && i + |q.text| <= |target| {
      forall k | 0 <= k < |q.text|
        ensures Lower(target)[i + k] == Lower(q.text)[k] <==> Same(target[i + k], q.text[k], false)
      {
        LowerIff(target[i + k], q.text[k]);
      }
    }
  }

  /** A query matches exactly where its text stands, capitals counting only if it says so. */
  lemma MatchIff(target: string, q: Query)
    ensures MatchQuery(target, q) <==> Contains(target, q.text, q.caseSensitive)
  {
    forall i: nat
      ensures StandsAt(target, q.text, i, q.caseSensitive) <==>
              if q.caseSensitive then OccursAt(target, q.text, i) else OccursAt(Lower(target), Lower(q.text), i)
    {
      StandsIff(target, q, i);
    }
  }

  /** A line is reported if and only if its content, or the name of the file, contains the text in a field asked for. */
  lemma LineIsReportedExactly(f: LogFile, i: nat, q: Query)
    requires f.content.Some? && i < |Split(f.content.value)|
    ensures var line := Split(f.content.value)[i];
            Hit(f.name, i + 1, line) in FileHits(f, q) <==>
            || ((q.fields == [] || Content in q.fields) && Contains(line, q.text, q.caseSensitive))
            || (File in q.fields && Contains(f.name, q.text, q.caseSensitive))
  {
    LineIsReportedIff(f, i, q);
    MatchIff(Split(f.content.value)[i], q);
    MatchIff(f.name, q);
  }

  // Files

  /** A file is searched if and only if its time is unknown or within the bounds that are given. */
  lemma FileIsSearchedExactly(files: seq<LogFile>, f: LogFile, startMs: Option<int>, endMs: Option<int>)
    ensures f in FilterFiles(files, startMs, endMs) <==>
            && f in files
            && (f.modifiedMs == None
                || ((startMs == None || startMs.value <= f.modifiedMs.value)
                    && (endMs == None || f.modifiedMs.value <= endMs.value)))
  {
    FileIsSearchedIff(files, f, startMs, endMs);
  }

  ghost predicate HasEnding(name: string, ending: string) {
    exists stem :: name == stem + ending
  }

  lemma EndsIff(name: string, ending: string)
    ensures EndsWith(name, ending) <==> HasEnding(name, ending)
  {
    if EndsWith(name, ending) {
      assert name == name[..|name| - |ending|] + ending;
    }
    if stem :| name == stem + ending {
      assert name[|name| - |ending|..] == ending;
    }
  }

  /** A name is accepted if and only if it stays within the directory and has one of the three endings. */
  lemma NameIsAcceptedIff(name: string)
    ensures ValidFilename(name) <==>
            && '/' !in name && '\\' !in name
            && (forall i :: 0 <= i < |name| - 1 ==> name[i] != '.' || name[i + 1] != '.')
            && (HasEnding(name, ".log") || HasEnding(name, ".log.gz") || HasEnding(name, ".txt"))
  {
    EndsIff(name, ".log");
    EndsIff(name, ".log.gz");
    EndsIff(name, ".txt");
    HasDots(name);
    if Includes(name, "..") {
      var i: nat :| DotsAt(name, i);
      assert name[i] == '.' && name[i + 1] == '.';
    }
  }

  predicate DotsAt(name: string, i: nat) {
    i + 1 < |name| && name[i] == '.' && name[i + 1] == '.'
  }

  lemma HasDots(name: string)
    ensures Includes(name, "..") <==> exists i: nat :: DotsAt(name, i)
    ensures (exists i: nat :: DotsAt(name, i)) <==>
            exists i :: 0 <= i < |name| - 1 && name[i] == '.' && name[i + 1] == '.'
  {
    forall i: nat
      ensures OccursAt(name, "..", i) <==> DotsAt(name, i)
    {
      OccursIff(name, "..", i);
    }
    if i: nat :| DotsAt(name, i) {
      assert OccursAt(name, "..", i);
    }
    if i :| 0 <= i < |name| - 1 && name[i] == '.' && name[i + 1] == '.' {
      assert DotsAt(name, i);
    }
  }

  // Order

  lemma {:induction false} LinesAreInOrder(name: string, lines: seq<string>, matches: string -> bool, i: nat, j: nat)
    requires i < j < |LineHits(name, lines, matches)|
    ensures LineHits(name, lines, matches)[i].line < LineHits(name, lines, matches)[j].line
  {
    var n := |lines| - 1;
    var front := LineHits(name, lines[..n], matches);
    LineNumbersAreBounded(name, lines[..n], matches);
    if j < |front| {
      LinesAreInOrder(name, lines[..n], matches, i, j);
    } else {
      assert front[i] in front;
    }
  }

  /** Hits come in the order of the files, and within a file in the order of its lines. */
  lemma {:induction false} HitsAreInOrder(files: seq<LogFile>, k: nat, q: Query, i: nat, j: nat) returns (a: nat, b: nat)
    requires k <= |files| && i < j < |HitsBefore(files, k, q)|
    ensures var hits := HitsBefore(files, k, q);
            && a <= b < k && hits[i] in FileHits(files[a], q) && hits[j] in FileHits(files[b], q)
            && (a == b ==> hits[i].line < hits[j].line)
    decreases k
  {
    NoHitsBefore(files, q);
    NextFile(files, k - 1, q);
    if j < |HitsBefore(files, k - 1, q)| {
      a, b := HitsAreInOrder(files, k - 1, q, i, j);
    } else {
      a, b := LastFileInOrder(files, k, q, i, j);
    }
  }

  lemma LastFileInOrder(files: seq<LogFile>, k: nat, q: Query, i: nat, j: nat) returns (a: nat, b: nat)
    requires 0 < k <= |files| && i < j < |HitsBefore(files, k, q)| && |HitsBefore(files, k - 1, q)| <= j
    ensures var hits := HitsBefore(files, k, q);
            && a <= b < k && hits[i] in FileHits(files[a], q) && hits[j] in FileHits(files[b], q)
            && (a == b ==> hits[i].line < hits[j].line)
  {
    var n, last := |HitsBefore(files, k - 1, q)|, FileHits(files[k - 1], q);
    NextFile(files, k - 1, q);
    b := k - 1;
    assert HitsBefore(files, k, q)[j] == last[j - n];
    if i < n {
      a := FileOfHit(files, k - 1, q, i);
    } else {
      a := k - 1;
      assert HitsBefore(files, k, q)[i] == last[i - n];
      FileHitsAreInOrder(files[a], q, i - n, j - n);
    }
  }

  lemma FileHitsAreInOrder(f: LogFile, q: Query, i: nat, j: nat)
    requires i < j < |FileHits(f, q)|
    ensures FileHits(f, q)[i].line < FileHits(f, q)[j].line
  {
    LinesAreInOrder(f.name, Split(f.content.value), Matcher(f.name, q), i, j);
  }

  lemma NoHitsBefore(files: seq<LogFile>, q: Query)
    ensures HitsBefore(files, 0, q) == []
  {
    assert HitLists(files, q)[..0] == [];
  }

  lemma {:induction false} FileOfHit(files: seq<LogFile>, k: nat, q: Query, i: nat) returns (a: nat)
    requires k <= |files| && i < |HitsBefore(files, k, q)|
    ensures a < k && HitsBefore(files, k, q)[i] in FileHits(files[a], q)
    decreases k
  {
    NoHitsBefore(files, q);
    NextFile(files, k - 1, q);
    if i < |HitsBefore(files, k - 1, q)| {
      a := FileOfHit(files, k - 1, q, i);
    } else {
      a := k - 1;
    }
  }

  // How much is returned

  /** Limits default to 200 a server and 500 in all, and are kept between 1 and 500, or 1 and 2000. */
  lemma LimitsAre(input: Input)
    ensures PerServer(input) == match input.maxPerServer
                                case None => 200
                                case Some(n) => if n <= 1 then 1 else if n >= 500 then 500 else n
    ensures Total(input) == match input.maxTotal
                            case None => 500
                            case Some(n) => if n <= 1 then 1 else if n >= 2000 then 2000 else n
  {
  }

  /** A row shows its server and line, and the file and content only if no fields or these are asked for. */
  lemma RowShows(r: Row, fields: seq<Field>)
    ensures var p := Project(r, fields);
            && p.serverId == r.serverId && p.hit.line == r.hit.line
            && p.hit.file == (if fields == [] || File in fields then r.hit.file else "")
            && p.hit.content == (if fields == [] || Content in fields then r.hit.content else "")
  {
  }
}
