/**
 The last lines of a log file, read from one chunk at its end; text is taken as single-byte
 characters. The plain meaning splits the whole file.
 */
module LogTail {
  import opened Collections
  import opened Text

  datatype TailFile = Plain(content: string) | Gzip(compressedSize: nat, content: string)

  const BYTES_PER_LINE := 200

  function Size(f: TailFile): nat {
    if f.Plain? then |f.content| else f.compressedSize
  }

  /** The chunk that is read: about 200 bytes a line, at most the file. */
  function ChunkSize(content: string, lines: nat): (n: nat)
    ensures n <= |content|
  {
    Min(|content|, lines * BYTES_PER_LINE)
  }

  function Chunk(content: string, lines: nat): string {
    LastN(content, ChunkSize(content, lines))
  }

  predicate ChunkCovers(content: string, lines: nat) {
    |content| <= lines * BYTES_PER_LINE
  }

  /** How many lines are returned: the wanted number, as far as the chunk has whole lines. */
  function TailCount(content: string, lines: nat): (n: nat)
    ensures n <= |Split(content)|
  {
    SplitCountsNewlines(content);
    NewlinesOfChunk(content, lines);
    if ChunkCovers(content, lines) then Min(lines, |Split(content)|) else Min(lines, Newlines(Chunk(content, lines)))
  }

  lemma NewlinesOfChunk(content: string, lines: nat)
    ensures Newlines(Chunk(content, lines)) <= Newlines(content)
  {
    NewlinesOfSuffix(content, |content| - ChunkSize(content, lines));
  }

  lemma {:induction false} NewlinesOfSuffix(s: string, k: nat)
    requires k <= |s|
    ensures Newlines(s[k..]) <= Newlines(s)
  {
    if k > 0 {
      NewlinesOfSuffix(s[1..], k - 1);
      assert s[1..][k - 1..] == s[k..];
    } else {
      assert s[0..] == s;
    }
  }

  /** The lines of a text after its first line break are the last lines of any longer text. */
  lemma LinesAfterFirstBreak(before: string, chunk: string)
    ensures var all, part := Split(before + chunk), Split(chunk);
            |part| <= |all| && part[1..] == LastN(all, |part| - 1)
  {
    SplitConcat(before, chunk);
  }

  /**
   Whatever the chunk boundary, what is returned are the last lines of the whole file.
   None stands for the range error of a negative chunk size; the endpoint never asks for one.
   */
  method TailLogFile(f: TailFile, lines: int) returns (r: Option<string>)
    ensures Size(f) == 0 ==> r == Some("")
    ensures Size(f) > 0 && f.Gzip? ==> r == Some(Join(SliceFrom(Split(f.content), -lines)))
    ensures Size(f) > 0 && f.Plain? && lines < 0 ==> r == None
    ensures Size(f) > 0 && f.Plain? && lines >= 0 ==>
              r == Some(Join(LastN(Split(f.content), TailCount(f.content, lines))))
  {
    if Size(f) == 0 {
      return Some("");
    }
    if f.Gzip? {
      return Some(Join(SliceFrom(Split(f.content), -lines)));
    }
    var chunkSize := Min(Size(f), lines * BYTES_PER_LINE);
    var startPos := Max(0, Size(f) - chunkSize);
    if Size(f) - startPos < 0 {
      return None;
    }
    var text := f.content[startPos..];
    var allLines := Split(text);
    if startPos > 0 {
      allLines := allLines[1..];
    }
    assert allLines == KeptLines(f.content, startPos);
    TailOfChunk(f.content, lines);
    return Some(Join(SliceFrom(allLines, -lines)));
  }

  function KeptLines(content: string, startPos: nat): seq<string>
    requires startPos <= |content|
  {
    if startPos > 0 then Split(content[startPos..])[1..] else Split(content[startPos..])
  }

  lemma TailOfChunk(content: string, lines: int)
    requires content != "" && lines >= 0
    ensures SliceFrom(KeptLines(content, |content| - ChunkSize(content, lines)), -lines) ==
            LastN(Split(content), TailCount(content, lines))
  {
    if ChunkCovers(content, lines) {
      assert content[0..] == content;
      SliceIsLast(Split(content), lines);
    } else {
      TailOfPart(content, lines);
    }
  }

  lemma TailOfPart(content: string, lines: int)
    requires lines >= 0 && !ChunkCovers(content, lines)
    ensures SliceFrom(KeptLines(content, |content| - ChunkSize(content, lines)), -lines) ==
            LastN(Split(content), TailCount(content, lines))
  {
    var chunk := Chunk(content, lines);
    var startPos := |content| - |chunk|;
    assert content == content[..startPos] + chunk && content[startPos..] == chunk;
    LinesAfterFirstBreak(content[..startPos], chunk);
    assert content[..startPos] + chunk == content;
    LastOfRest(Split(content), Split(chunk), lines);
    SplitCountsNewlines(chunk);
    if lines == 0 {
      assert chunk == "";
    }
  }

  lemma LastOfRest(all: seq<string>, part: seq<string>, lines: int)
    requires 0 < |part| <= |all| && part[1..] == LastN(all, |part| - 1)
    ensures lines > 0 ==> SliceFrom(part[1..], -lines) == LastN(all, Min(lines, |part| - 1))
  {
    if lines > 0 {
      var rest, k := part[1..], Min(lines, |part| - 1);
      SliceIsLast(rest, lines);
      LastOfLast(all, |rest|, k);
      assert SliceFrom(rest, -lines) == LastN(rest, k) == LastN(LastN(all, |rest|), k);
    }
  }

  lemma LastOfLast<T>(s: seq<T>, m: nat, k: nat)
    requires k <= m <= |s|
    ensures LastN(LastN(s, m), k) == LastN(s, k)
  {
  }

  lemma SliceIsLast<T>(s: seq<T>, n: int)
    requires n > 0
    ensures SliceFrom(s, -n) == LastN(s, Min(n, |s|))
  {
  }

  /** All wanted lines are returned exactly when the chunk covers the file or has enough line breaks. */
  lemma TailIsCompleteIff(content: string, lines: nat)
    requires lines > 0
    ensures TailCount(content, lines) == Min(lines, |Split(content)|) <==>
            ChunkCovers(content, lines) || Newlines(Chunk(content, lines)) >= lines
  {
    SplitCountsNewlines(content);
    NewlinesOfChunk(content, lines);
  }

  lemma {:induction false} JoinOfSplit(s: string)
    ensures Join(Split(s)) == s
  {
    if s != "" {
      var rest := Split(s[1..]);
      JoinOfSplit(s[1..]);
      if s[0] == '\n' {
        assert Split(s) == [""] + rest && Split(s)[1..] == rest;
        assert Join(Split(s)) == "" + "\n" + s[1..];
      } else {
        LongerFirst(s[0], rest);
      }
      assert s == [s[0]] + s[1..];
    }
  }

  lemma LongerFirst(c: char, lines: seq<string>)
    requires lines != []
    ensures Join([[c] + lines[0]] + lines[1..]) == [c] + Join(lines)
  {
    var longer := [[c] + lines[0]] + lines[1..];
    assert longer[1..] == lines[1..];
    if |lines| > 1 {
      assert [c] + lines[0] + "\n" + Join(lines[1..]) == [c] + (lines[0] + "\n" + Join(lines[1..]));
    }
  }

  lemma {:induction false} JoinParts(lines: seq<string>, k: nat)
    requires 0 < k < |lines|
    ensures Join(lines) == Join(lines[..k]) + "\n" + Join(lines[k..])
    decreases |lines|
  {
    var rest := lines[1..];
    if k > 1 {
      JoinParts(rest, k - 1);
      assert lines[..k][1..] == rest[..k - 1] && lines[k..] == rest[k - 1..];
      assert Join(lines[..k]) == lines[0] + "\n" + Join(rest[..k - 1]);
    } else {
      assert lines[..1] == [lines[0]];
    }
  }

  /** The last `n` lines of a text stand at its end, after a line break unless they are the whole text. */
  lemma LastLinesEndText(content: string, n: nat)
    requires 0 < n <= |Split(content)|
    ensures var end := Join(LastN(Split(content), n));
            && Newlines(end) == n - 1
            && (n == |Split(content)| ==> end == content)
            && (n < |Split(content)| ==> exists start :: content == start + "\n" + end)
  {
    var lines := Split(content);
    var end := Join(LastN(lines, n));
    SplitYieldsLines(content);
    SplitJoin(LastN(lines, n));
    SplitCountsNewlines(end);
    JoinOfSplit(content);
    if n < |lines| {
      JoinParts(lines, |lines| - n);
    } else {
      assert LastN(lines, n) == lines;
    }
  }

  lemma {:induction false} NewlinesAfter(a: string, b: string)
    ensures Newlines(a + b) == Newlines(a) + Newlines(b)
  {
    if a == "" {
      assert a + b == b;
    } else {
      NewlinesAfter(a[1..], b);
      assert (a + b)[1..] == a[1..] + b;
    }
  }

  lemma EndFits(start: string, end: string, size: nat)
    requires |end| < size <= |start| + 1 + |end|
    ensures Newlines(LastN(start + "\n" + end, size)) >= Newlines(end) + 1
  {
    var from := |start| + 1 + |end| - size;
    var rest := start[from..];
    assert LastN(start + "\n" + end, size) == rest + ("\n" + end);
    NewlinesAfter(rest, "\n" + end);
    assert ("\n" + end)[1..] == end;
  }

  lemma DropsStart(start: string, end: string, k: nat)
    requires k <= |end|
    ensures LastN(start + end, |end| - k) == end[k..]
  {
    var all, n := start + end, |start| + k;
    assert all[n..] == end[k..];
  }

  lemma EndDoesNotFit(start: string, end: string, k: nat)
    requires k <= |end|
    ensures Newlines(LastN(start + end, |end| - k)) <= Newlines(end)
  {
    DropsStart(start, end, k);
    NewlinesOfSuffix(end, k);
  }

  /** The end of a text holds a line break for each of the last `n` lines exactly when it is longer than these. */
  lemma BreaksIff(content: string, n: nat, size: nat)
    requires 0 < n <= |Split(content)| && size < |content|
    ensures n <= Newlines(LastN(content, size)) <==> |Join(LastN(Split(content), n))| < size
  {
    var end := Join(LastN(Split(content), n));
    LastLinesEndText(content, n);
    if n == |Split(content)| {
      SplitCountsNewlines(content);
      NewlinesOfSuffix(content, |content| - size);
    } else {
      var start :| content == start + "\n" + end;
      if |end| < size {
        EndFits(start, end, size);
      } else {
        EndDoesNotFit(start + "\n", end, |end| - size);
      }
    }
  }

  /**
   What is returned is as much as fits: of the wanted lines the last `n` are returned if and only if
   the file, or these lines and the line break before them, fit into 200 bytes a wanted line.
   */
  lemma TailIsMaximal(content: string, lines: nat, n: nat)
    requires 0 < n <= lines && n <= |Split(content)|
    ensures n <= TailCount(content, lines) <==>
            |content| <= 200 * lines || |Join(LastN(Split(content), n))| < 200 * lines
  {
    if |content| > 200 * lines {
      BreaksIff(content, n, 200 * lines);
    }
  }

  /** The returned text splits back into the returned lines, so no line is cut or merged. */
  lemma TailSplitsBack(content: string, lines: nat)
    requires TailCount(content, lines) > 0
    ensures var ls := LastN(Split(content), TailCount(content, lines));
            Split(Join(ls)) == ls
  {
    SplitYieldsLines(content);
    SplitJoin(LastN(Split(content), TailCount(content, lines)));
  }

  /** One long line at the end of a file hides the lines before it. */
  lemma LongLineHidesTail(content: string, lines: nat)
    requires !ChunkCovers(content, lines) && '\n' !in Chunk(content, lines)
    ensures TailCount(content, lines) == 0
  {
    NoNewlines(Chunk(content, lines));
  }

  lemma {:induction false} NoNewlines(s: string)
    requires '\n' !in s
    ensures Newlines(s) == 0
  {
    if s != "" {
      NoNewlines(s[1..]);
    }
  }
}
