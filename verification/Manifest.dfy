/** The manifest parser: headers, continuation lines and what folding a long value changes. */
module Manifest {
  import opened Collections
  import opened Text

  datatype Parse = Parse(manifest: map<string, string>, currentKey: Option<string>)

  const START := Parse(map[], None)

  /** The one property name of the language's objects that takes no text value. */
  const PROTO := "__proto__"

  /** Every carriage return followed by a line feed becomes a line feed. */
  function Normalise(s: string): string {
    if s == "" then ""
    else if |s| >= 2 && s[..2] == "\r\n" then "\n" + Normalise(s[2..])
    else [s[0]] + Normalise(s[1..])
  }

  /** The first colon, or the length when there is none. */
  function ColonIndex(s: string): (k: nat)
    ensures k <= |s| && (k < |s| <==> ':' in s)
    ensures k < |s| ==> s[k] == ':'
    ensures ':' !in s[..k]
  {
    if s == "" || s[0] == ':' then 0
    else
      var k := 1 + ColonIndex(s[1..]);
      assert s == [s[0]] + s[1..] && s[..k] == [s[0]] + s[1..][..k - 1];
      k
  }

  function Assign(m: map<string, string>, key: string, value: string): map<string, string> {
    if key == PROTO then m else m[key := value]
  }

  /** Appends to the current header, unless there is none or its name is empty. */
  function Continue(st: Parse, more: string): Parse {
    if st.currentKey.None? || st.currentKey.value == "" || st.currentKey.value !in st.manifest then st
    else st.(manifest := st.manifest[st.currentKey.value := st.manifest[st.currentKey.value] + more])
  }

  function Header(st: Parse, line: string): Parse
    requires ':' in line
  {
    var k := ColonIndex(line);
    var key := Trim(line[..k]);
    Parse(Assign(st.manifest, key, TrimStart(line[k + 1..])), Some(key))
  }

  function Step(st: Parse, line: string): Parse {
    if line == "" then st.(currentKey := None)
    else if line[0] == ' ' then Continue(st, line[1..])
    else if ':' !in line then st.(currentKey := None)
    else Header(st, line)
  }

  function ParseFrom(st: Parse, lines: seq<string>): Parse {
    if lines == [] then st else Step(ParseFrom(st, lines[..|lines| - 1]), lines[|lines| - 1])
  }

  function ParseText(content: string): map<string, string> {
    ParseFrom(START, Split(Normalise(content))).manifest
  }

  /** The parser as written, line by line. */
  method ParseManifestText(content: string) returns (manifest: map<string, string>)
    ensures manifest == ParseText(content)
  {
    var lines := Split(Normalise(content));
    manifest := map[];
    var currentKey: Option<string> := None;
    for i := 0 to |lines|
      invariant Parse(manifest, currentKey) == ParseFrom(START, lines[..i])
      invariant currentKey.Some? && currentKey.value != PROTO ==> currentKey.value in manifest
      invariant PROTO !in manifest
    {
      var rawLine := lines[i];
      assert lines[..i + 1][..i] == lines[..i];
      if rawLine == "" {
        currentKey := None;
      } else if rawLine[0] == ' ' {
        if currentKey.Some? && currentKey.value != "" && currentKey.value != PROTO {
          manifest := manifest[currentKey.value := manifest[currentKey.value] + rawLine[1..]];
        }
      } else {
        var separatorIndex := ColonIndex(rawLine);
        if separatorIndex == |rawLine| {
          currentKey := None;
        } else {
          var key := Trim(rawLine[..separatorIndex]);
          currentKey := Some(key);
          if key != PROTO {
            manifest := manifest[key := TrimStart(rawLine[separatorIndex + 1..])];
          }
        }
      }
    }
    assert lines[..|lines|] == lines;
  }

  // Folding one line

  predicate IsContinuation(p: string) {
    p != "" && p[0] == ' '
  }

  predicate IsHeader(p: string) {
    p != "" && p[0] != ' ' && ':' in p
  }

  function KeyOf(p: string): string
    requires ':' in p
  {
    Trim(p[..ColonIndex(p)])
  }

  function ValueOf(p: string): string
    requires ':' in p
  {
    TrimStart(p[ColonIndex(p) + 1..])
  }

  /** A header line cut before `q` reads the same folded, seen from the two parts alone. */
  predicate HeaderFoldsWell(p: string, q: string)
    requires ':' in p
  {
    || KeyOf(p) == PROTO
    || (if KeyOf(p) == "" then q == "" || (ValueOf(p) == "" && TrimStart(q) == "")
        else ValueOf(p) != "" || q == "" || !IsSpace(q[0]))
  }

  predicate FoldsWell(p: string, q: string) {
    IsContinuation(p) || (IsHeader(p) && HeaderFoldsWell(p, q))
  }

  lemma {:induction false} TrimStartLonger(s: string, q: string)
    ensures TrimStart(s) != "" ==> TrimStart(s + q) == TrimStart(s) + q
    ensures TrimStart(s) == "" ==> TrimStart(s + q) == TrimStart(q)
  {
    if s != "" && IsSpace(s[0]) {
      TrimStartLonger(s[1..], q);
      assert (s + q)[1..] == s[1..] + q;
    } else if s == "" {
      assert s + q == q;
    }
  }

  lemma {:induction false} TrimStartChanges(q: string)
    ensures TrimStart(q) == q <==> q == "" || !IsSpace(q[0])
  {
    if q != "" && IsSpace(q[0]) {
      TrimStartShortens(q[1..]);
    }
  }

  lemma {:induction false} TrimStartShortens(s: string)
    ensures |TrimStart(s)| <= |s|
  {
    if s != "" && IsSpace(s[0]) {
      TrimStartShortens(s[1..]);
    }
  }

  lemma {:induction false} ColonOfLonger(p: string, q: string)
    requires ':' in p
    ensures ColonIndex(p + q) == ColonIndex(p)
  {
    if p[0] != ':' {
      assert (p + q)[1..] == p[1..] + q;
      assert p == [p[0]] + p[1..];
      ColonOfLonger(p[1..], q);
    }
  }

  lemma HeaderOfLonger(p: string, q: string)
    requires ':' in p
    ensures KeyOf(p + q) == KeyOf(p)
    ensures ValueOf(p + q) == if ValueOf(p) != "" then ValueOf(p) + q else TrimStart(q)
  {
    var k := ColonIndex(p);
    ColonOfLonger(p, q);
    assert (p + q)[..k] == p[..k];
    assert (p + q)[k + 1..] == p[k + 1..] + q;
    TrimStartLonger(p[k + 1..], q);
  }

  lemma AssignEqualIff(m: map<string, string>, key: string, a: string, b: string)
    requires key != PROTO
    ensures Assign(m, key, a) == Assign(m, key, b) <==> a == b
  {
    assert Assign(m, key, a)[key] == a && Assign(m, key, b)[key] == b;
  }

  /** What the two lines of a folded header make of the manifest. */
  lemma FoldedHeader(st: Parse, p: string, q: string)
    requires IsHeader(p) && PROTO !in st.manifest
    ensures var key := KeyOf(p);
            Step(Step(st, p), " " + q) ==
            Parse(Assign(st.manifest, key, if key == "" then ValueOf(p) else ValueOf(p) + q), Some(key))
  {
    assert (" " + q)[1..] == q;
    var key, value := KeyOf(p), ValueOf(p);
    assert Step(st, p) == Parse(Assign(st.manifest, key, value), Some(key));
    assert st.manifest[key := value][key := value + q] == st.manifest[key := value + q];
  }

  lemma UnfoldedHeader(st: Parse, p: string, q: string)
    requires IsHeader(p)
    ensures Step(st, p + q) ==
            Parse(Assign(st.manifest, KeyOf(p), if ValueOf(p) != "" then ValueOf(p) + q else TrimStart(q)), Some(KeyOf(p)))
  {
    HeaderOfLonger(p, q);
  }

  /** Folding a header line after its colon changes nothing exactly when both readings agree. */
  lemma HeaderFoldIff(st: Parse, p: string, q: string)
    requires IsHeader(p) && PROTO !in st.manifest
    ensures Step(Step(st, p), " " + q) == Step(st, p + q) <==> HeaderFoldsWell(p, q)
  {
    FoldedHeader(st, p, q);
    UnfoldedHeader(st, p, q);
    TrimStartChanges(q);
    LongerDiffers(ValueOf(p), q);
    assert "" + q == q;
    if KeyOf(p) != PROTO {
      AssignEqualIff(st.manifest, KeyOf(p), if KeyOf(p) == "" then ValueOf(p) else ValueOf(p) + q,
                     if ValueOf(p) != "" then ValueOf(p) + q else TrimStart(q));
    }
  }

  lemma LongerDiffers(value: string, q: string)
    ensures value + q == value <==> q == ""
  {
    assert |value + q| == |value| + |q|;
  }

  /** Folding a continuation line after its leading space never changes anything. */
  lemma ContinuationFold(st: Parse, p: string, q: string)
    requires IsContinuation(p)
    ensures Step(Step(st, p), " " + q) == Step(st, p + q)
  {
    var more := p[1..];
    assert (" " + q)[1..] == q && (p + q)[1..] == more + q;
    if st.currentKey.Some? && st.currentKey.value != "" && st.currentKey.value in st.manifest {
      var key, m := st.currentKey.value, st.manifest;
      assert m[key := m[key] + more][key := m[key] + more + q] == m[key := m[key] + (more + q)] by {
        assert m[key] + more + q == m[key] + (more + q);
      }
    }
  }

  lemma LineFold(st: Parse, p: string, q: string)
    requires FoldsWell(p, q) && PROTO !in st.manifest
    ensures Step(Step(st, p), " " + q) == Step(st, p + q)
  {
    if IsContinuation(p) {
      ContinuationFold(st, p, q);
    } else {
      HeaderFoldIff(st, p, q);
    }
  }

  // Folding a text

  lemma {:induction false} ParseNeverHoldsProto(lines: seq<string>)
    ensures PROTO !in ParseFrom(START, lines).manifest
  {
    if lines != [] {
      ParseNeverHoldsProto(lines[..|lines| - 1]);
    }
  }

  lemma {:induction false} ParseConcat(st: Parse, a: seq<string>, b: seq<string>)
    ensures ParseFrom(st, a + b) == ParseFrom(ParseFrom(st, a), b)
  {
    if b == [] {
      assert a + b == a;
    } else {
      var n := |b| - 1;
      ParseConcat(st, a, b[..n]);
      assert (a + b)[..|a| + n] == a + b[..n];
    }
  }

  predicate EndsInReturn(s: string) {
    s != "" && s[|s| - 1] == '\r'
  }

  predicate StartsWithBreak(s: string) {
    |s| >= 2 && s[0] == '\r' && s[1] == '\n'
  }

  lemma NormaliseStep(s: string)
    requires s != ""
    ensures Normalise(s) == if StartsWithBreak(s) then "\n" + Normalise(s[2..]) else [s[0]] + Normalise(s[1..])
  {
    assert StartsWithBreak(s) <==> |s| >= 2 && s[..2] == "\r\n";
  }

  lemma {:induction false} NormaliseConcat(a: string, b: string)
    requires !EndsInReturn(a)
    ensures Normalise(a + b) == Normalise(a) + Normalise(b)
  {
    if a == "" {
      assert a + b == b;
    } else {
      var k := if StartsWithBreak(a) then 2 else 1;
      FirstNormalised(a, b, k);
      NormaliseConcat(a[k..], b);
      Regroup(if k == 2 then "\n" else [a[0]], Normalise(a[k..]), Normalise(b));
    }
  }

  lemma Regroup(a: string, b: string, c: string)
    ensures a + (b + c) == a + b + c
  {
  }

  /** What the first one or two characters become does not depend on what follows. */
  lemma FirstNormalised(a: string, b: string, k: nat)
    requires a != "" && !EndsInReturn(a) && k == if StartsWithBreak(a) then 2 else 1
    ensures !EndsInReturn(a[k..])
    ensures var first := if k == 2 then "\n" else [a[0]];
            Normalise(a) == first + Normalise(a[k..]) && Normalise(a + b) == first + Normalise(a[k..] + b)
  {
    NormaliseStep(a);
    NormaliseStep(a + b);
    assert (a + b)[k..] == a[k..] + b;
    assert StartsWithBreak(a + b) <==> StartsWithBreak(a);
  }

  /** A line break, as line feed or as carriage return and line feed, and the space of a continuation line. */
  lemma NormaliseBreak(b: string)
    ensures Normalise("\n " + b) == "\n " + Normalise(b)
    ensures Normalise("\r\n " + b) == "\n " + Normalise(b)
  {
    var space := " " + b;
    assert space[1..] == b && ("\n" + space)[1..] == space && ("\r\n" + space)[2..] == space;
    assert |space| >= 2 ==> space[..2][0] == ' ' != "\r\n"[0];
    assert Normalise(space) == " " + Normalise(b);
    assert "\n " + b == "\n" + space && "\r\n " + b == "\r\n" + space;
    assert "\n" + (" " + Normalise(b)) == "\n " + Normalise(b);
  }

  /** The lines when a break and a space come between two texts. */
  lemma LinesOfFold(a: string, b: string)
    ensures var la, lb := Split(a), Split(b);
            Split(a + ("\n " + b)) == la + [" " + lb[0]] + lb[1..]
  {
    var la, lb := Split(a), Split(b);
    var more := [" " + lb[0]] + lb[1..];
    var text := "\n " + b;
    LinesOfBreak(b);
    SplitConcat(a, text);
    GlueEmpty(la, more);
    ConcatRegroup(la, [" " + lb[0]], lb[1..]);
  }

  lemma ConcatRegroup(a: seq<string>, b: seq<string>, c: seq<string>)
    ensures a + (b + c) == a + b + c
  {
  }

  lemma GlueEmpty(a: seq<string>, more: seq<string>)
    requires |a| >= 1
    ensures Glue(a, [""] + more) == a + more
  {
    assert a[|a| - 1] + "" == a[|a| - 1];
  }

  lemma LinesOfBreak(b: string)
    ensures Split("\n " + b) == [""] + ([" " + Split(b)[0]] + Split(b)[1..])
  {
    var space := " " + b;
    assert "\n " + b == "\n" + space && ("\n" + space)[1..] == space && space[1..] == b;
  }

  function LastLine(s: string): string {
    Split(s)[|Split(s)| - 1]
  }

  /** Whether the text may be folded between `a` and `b`, as the lines around the place tell. */
  predicate MayFold(a: string, b: string) {
    !EndsInReturn(a) && FoldsWell(LastLine(Normalise(a)), Split(Normalise(b))[0])
  }

  lemma {:induction false} FoldedLinesParseAlike(a: string, b: string)
    requires FoldsWell(LastLine(a), Split(b)[0])
    ensures ParseFrom(START, Split(a + ("\n " + b))) == ParseFrom(START, Split(a + b))
  {
    var la, lb := Split(a), Split(b);
    var front, p, q := la[..|la| - 1], la[|la| - 1], lb[0];
    var st := ParseFrom(START, front);
    LinesOfFold(a, b);
    SplitConcat(a, b);
    ParseNeverHoldsProto(front);
    LineFold(st, p, q);
    assert la + [" " + q] + lb[1..] == front + [p, " " + q] + lb[1..];
    OneLineOrTwo(front, p, q, lb[1..]);
  }

  lemma OneLineOrTwo(front: seq<string>, p: string, q: string, rest: seq<string>)
    requires var st := ParseFrom(START, front); Step(Step(st, p), " " + q) == Step(st, p + q)
    ensures ParseFrom(START, front + [p, " " + q] + rest) == ParseFrom(START, front + [p + q] + rest)
  {
    ParseConcat(START, front + [p, " " + q], rest);
    ParseConcat(START, front + [p + q], rest);
    assert (front + [p, " " + q])[..|front| + 1] == front + [p];
    assert (front + [p])[..|front|] == front && (front + [p + q])[..|front|] == front;
  }

  /**
   Inserting a line break and one space inside the value of a header, or in a continuation line
   of it, leaves the parsed manifest unchanged.
   */
  lemma FoldingKeepsManifest(a: string, b: string)
    requires MayFold(a, b)
    ensures ParseText(a + "\n " + b) == ParseText(a + b) == ParseText(a + "\r\n " + b)
  {
    assert a + "\n " + b == a + ("\n " + b) && a + "\r\n " + b == a + ("\r\n " + b);
    NormaliseConcat(a, b);
    NormaliseConcat(a, "\n " + b);
    NormaliseConcat(a, "\r\n " + b);
    NormaliseBreak(b);
    FoldedLinesParseAlike(Normalise(a), Normalise(b));
  }

  /** Each text is the one before it folded at one place. */
  ghost predicate FoldedStepwise(texts: seq<string>, places: seq<nat>) {
    && |texts| == |places| + 1
    && forall i :: 0 <= i < |places| ==> IsFoldAt(texts[i], texts[i + 1], places[i])
  }

  predicate IsFoldAt(before: string, after: string, k: nat) {
    && k <= |before| && MayFold(before[..k], before[k..])
    && after in {before[..k] + "\n " + before[k..], before[..k] + "\r\n " + before[k..]}
  }

  /** Any number of folds, one after another, leaves the manifest unchanged. */
  lemma {:induction false} AnyNumberOfFolds(texts: seq<string>, places: seq<nat>)
    requires FoldedStepwise(texts, places)
    ensures ParseText(texts[|places|]) == ParseText(texts[0])
  {
    if places != [] {
      var n := |places| - 1;
      AnyNumberOfFolds(texts[..n + 1], places[..n]);
      assert IsFoldAt(texts[n], texts[n + 1], places[n]);
      var t, k := texts[n], places[n];
      assert t == t[..k] + t[k..];
      FoldingKeepsManifest(t[..k], t[k..]);
    }
  }

  /** A header without a name: its continuation lines are dropped, so folding loses text. */
  lemma NamelessHeaderLosesFold(value: string, q: string)
    requires TrimStart(value) == value != "" && q != ""
    ensures Step(Step(START, ":" + value), " " + q) != Step(START, ":" + value + q)
  {
    var p := ":" + value;
    assert ColonIndex(p) == 0 && p[..0] == "" && p[1..] == value;
    assert KeyOf(p) == "" by {
      assert Trim("") == "";
    }
    HeaderFoldIff(START, p, q);
  }

  // Reading back what was written

  predicate OneLine(s: string) {
    '\n' !in s && '\r' !in s
  }

  /** A header that can be written on one line and read back. */
  predicate Writable(e: (string, string)) {
    && OneLine(e.0) && OneLine(e.1) && ':' !in e.0
    && e.0 != "" && e.0 != PROTO && Trim(e.0) == e.0 && TrimStart(e.1) == e.1
  }

  function HeaderLine(e: (string, string)): string {
    e.0 + ": " + e.1
  }

  function HeaderLines(es: seq<(string, string)>): (lines: seq<string>)
    ensures |lines| == |es|
  {
    seq(|es|, i requires 0 <= i < |es| => HeaderLine(es[i]))
  }

  /** The map of the headers; of two with one name the later one counts. */
  function MapOf(es: seq<(string, string)>): map<string, string> {
    if es == [] then map[] else MapOf(es[..|es| - 1])[es[|es| - 1].0 := es[|es| - 1].1]
  }

  lemma {:induction false} TrimEndShortens(s: string)
    ensures |TrimEnd(s)| <= |s|
  {
    if s != "" && IsSpace(s[|s| - 1]) {
      TrimEndShortens(s[..|s| - 1]);
    }
  }

  lemma TrimmedStartsPlain(s: string)
    requires Trim(s) == s && s != ""
    ensures !IsSpace(s[0])
  {
    if IsSpace(s[0]) {
      TrimStartShortens(s[1..]);
      TrimEndShortens(TrimStart(s));
    }
  }

  lemma {:induction false} ColonAfter(key: string, rest: string)
    requires ':' !in key
    ensures ColonIndex(key + ":" + rest) == |key|
  {
    if key != "" {
      assert (key + ":" + rest)[1..] == key[1..] + ":" + rest;
      assert key == [key[0]] + key[1..];
      ColonAfter(key[1..], rest);
    }
  }

  lemma WrittenHeader(st: Parse, e: (string, string))
    requires Writable(e)
    ensures Step(st, HeaderLine(e)) == Parse(st.manifest[e.0 := e.1], Some(e.0))
  {
    var line, value := HeaderLine(e), " " + e.1;
    assert line == e.0 + ":" + value;
    ColonAfter(e.0, value);
    TrimmedStartsPlain(e.0);
    assert line[..|e.0|] == e.0 && line[|e.0| + 1..] == value && value[1..] == e.1;
    assert line[|e.0|] == ':';
  }

  lemma {:induction false} WrittenHeaders(es: seq<(string, string)>)
    requires forall i :: 0 <= i < |es| ==> Writable(es[i])
    ensures ParseFrom(START, HeaderLines(es)).manifest == MapOf(es)
  {
    if es != [] {
      var n := |es| - 1;
      WrittenHeaders(es[..n]);
      assert HeaderLines(es)[..n] == HeaderLines(es[..n]);
      WrittenHeader(ParseFrom(START, HeaderLines(es[..n])), es[n]);
    }
  }

  lemma {:induction false} NothingToNormalise(s: string)
    requires '\r' !in s
    ensures Normalise(s) == s
  {
    if s != "" {
      assert |s| >= 2 ==> s[..2][0] == s[0] != "\r\n"[0];
      NothingToNormalise(s[1..]);
      assert s == [s[0]] + s[1..];
    }
  }

  lemma {:induction false} JoinAddsNoReturn(lines: seq<string>)
    requires forall i :: 0 <= i < |lines| ==> '\r' !in lines[i]
    ensures '\r' !in Join(lines)
  {
    if |lines| > 1 {
      JoinAddsNoReturn(lines[1..]);
    }
  }

  /** Round trip: headers written one a line are read back as their map. */
  lemma WrittenManifestIsReadBack(es: seq<(string, string)>)
    requires |es| > 0 && forall i :: 0 <= i < |es| ==> Writable(es[i])
    ensures ParseText(Join(HeaderLines(es))) == MapOf(es)
  {
    HeaderLinesAreLines(es);
    LinesAreReadAsTheyAre(HeaderLines(es));
    WrittenHeaders(es);
  }

  lemma HeaderLinesAreLines(es: seq<(string, string)>)
    requires forall i :: 0 <= i < |es| ==> Writable(es[i])
    ensures forall i :: 0 <= i < |es| ==> OneLine(HeaderLines(es)[i])
  {
  }

  lemma LinesAreReadAsTheyAre(lines: seq<string>)
    requires |lines| > 0 && forall i :: 0 <= i < |lines| ==> OneLine(lines[i])
    ensures Split(Normalise(Join(lines))) == lines
  {
    JoinAddsNoReturn(lines);
    NothingToNormalise(Join(lines));
    SplitJoin(lines);
  }

  // What does not matter, and what ends a header

  /** A carriage return before a line feed makes no difference. */
  lemma LineEndsDoNotMatter(a: string, b: string)
    requires !EndsInReturn(a)
    ensures ParseText(a + "\r\n" + b) == ParseText(a + "\n" + b)
  {
    assert a + "\r\n" + b == a + ("\r\n" + b) && a + "\n" + b == a + ("\n" + b);
    NormaliseConcat(a, "\r\n" + b);
    NormaliseConcat(a, "\n" + b);
    assert ("\r\n" + b)[..2] == "\r\n" && ("\r\n" + b)[2..] == b && ("\n" + b)[1..] == b;
    assert ("\n" + b)[0] != "\r\n"[0];
  }

  /** White space around the name and before the value of a header makes no difference. */
  lemma PaddedHeader(st: Parse, name: string, after: string, before: string, value: string)
    requires ':' !in name && name != "" && name != PROTO && Bare(name) && Blank(after) && Blank(before)
    requires value == "" || !IsSpace(value[0])
    ensures Step(st, name + after + ":" + before + value) == Parse(st.manifest[name := value], Some(name))
  {
    var front := name + after;
    var line := front + ":" + (before + value);
    assert line == name + after + ":" + before + value;
    assert ':' !in front by {
      assert forall c :: c in after ==> IsSpace(c);
    }
    ColonAfter(front, before + value);
    assert line[..|front|] == front && line[|front| + 1..] == before + value && line[|front|] == ':';
    TrimStrips("", name, after);
    assert "" + name + after == front;
    TrimStartStrips(before, value);
    assert line[0] == name[0] && !IsSpace(name[0]);
  }

  /** After an empty line, or one that is neither header nor continuation, continuation lines are ignored. */
  lemma OtherLineEndsHeader(st: Parse, line: string, q: string)
    requires line == "" || (line[0] != ' ' && ':' !in line)
    ensures Step(Step(st, line), " " + q).manifest == st.manifest
  {
  }
}
