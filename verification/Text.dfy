/** Text as sequences of characters: decimal numerals and splitting into lines. */
module Text {

  // Decimal numerals

  function DigitChar(d: nat): char
    requires d < 10
  {
    "0123456789"[d]
  }

  /** The decimal numeral of `n`, without leading zeros. */
  function Digits(n: nat): (s: string)
    ensures |s| > 0
    ensures forall i :: 0 <= i < |s| ==> '0' <= s[i] <= '9'
  {
    if n < 10 then [DigitChar(n)] else Digits(n / 10) + [DigitChar(n % 10)]
  }

  function Numeral(s: string): int {
    if s == "" then 0 else 10 * Numeral(s[..|s| - 1]) + (s[|s| - 1] as int - '0' as int)
  }

  lemma {:induction false} NumeralOfDigits(n: nat)
    ensures Numeral(Digits(n)) == n
  {
    if n >= 10 {
      NumeralOfDigits(n / 10);
      assert Digits(n)[..|Digits(n)| - 1] == Digits(n / 10);
    } else {
      assert Digits(n)[..0] == "";
    }
  }

  lemma DigitsInjective(m: nat, n: nat)
    requires Digits(m) == Digits(n)
    ensures m == n
  {
    NumeralOfDigits(m);
    NumeralOfDigits(n);
  }

  function Pow10(k: nat): nat {
    if k == 0 then 1 else 10 * Pow10(k - 1)
  }

  lemma {:induction false} DigitsLength(n: nat, k: nat)
    requires k >= 1 && n < Pow10(k)
    ensures |Digits(n)| <= k
  {
    assert Pow10(1) == 10;
    if n >= 10 {
      DigitsLength(n / 10, k - 1);
    }
  }

  lemma {:induction false} DigitsLengthExact(n: nat, k: nat)
    requires k >= 1
    ensures |Digits(n)| <= k <==> n < Pow10(k)
  {
    if n < Pow10(k) {
      DigitsLength(n, k);
    } else {
      DigitsLengthAtLeast(n, k);
    }
  }

  lemma {:induction false} DigitsLengthAtLeast(n: nat, k: nat)
    requires n >= Pow10(k)
    ensures |Digits(n)| > k
  {
    if k > 0 {
      Pow10Positive(k - 1);
      DigitsLengthAtLeast(n / 10, k - 1);
    }
  }

  lemma {:induction false} Pow10Positive(k: nat)
    ensures Pow10(k) >= 1
  {
    if k > 0 {
      Pow10Positive(k - 1);
    }
  }

  // White space (the ASCII part of what the language trims)

  predicate IsSpace(c: char) {
    c == ' ' || ('\t' <= c <= '\r')
  }

  function TrimStart(s: string): (r: string)
    ensures r == "" || !IsSpace(r[0])
  {
    if s != "" && IsSpace(s[0]) then TrimStart(s[1..]) else s
  }

  function TrimEnd(s: string): (r: string)
    ensures r == "" || !IsSpace(r[|r| - 1])
  {
    if s != "" && IsSpace(s[|s| - 1]) then TrimEnd(s[..|s| - 1]) else s
  }

  function Trim(s: string): string {
    TrimEnd(TrimStart(s))
  }

  predicate Blank(s: string) {
    forall c :: c in s ==> IsSpace(c)
  }

  /** No white space at either end. */
  predicate Bare(s: string) {
    s == "" || (!IsSpace(s[0]) && !IsSpace(s[|s| - 1]))
  }

  lemma {:induction false} TrimStartStrips(a: string, p: string)
    requires Blank(a) && (p == "" || !IsSpace(p[0]))
    ensures TrimStart(a + p) == p
  {
    if a != "" {
      assert a[0] in a && forall c :: c in a[1..] ==> c in a;
      TrimStartStrips(a[1..], p);
      assert (a + p)[1..] == a[1..] + p;
    } else {
      assert a + p == p;
    }
  }

  lemma {:induction false} TrimEndStrips(p: string, b: string)
    requires Blank(b) && (p == "" || !IsSpace(p[|p| - 1]))
    ensures TrimEnd(p + b) == p
  {
    if b != "" {
      var n := |b| - 1;
      assert b[n] in b && forall c :: c in b[..n] ==> c in b;
      TrimEndStrips(p, b[..n]);
      assert (p + b)[..|p + b| - 1] == p + b[..n];
    } else {
      assert p + b == p;
    }
  }

  /** Trimming takes away exactly the white space at the ends. */
  lemma TrimStrips(a: string, p: string, b: string)
    requires Blank(a) && Blank(b) && Bare(p)
    ensures Trim(a + p + b) == p
  {
    if p == "" {
      BlankTrims(a + b);
      assert a + p + b == a + b;
    } else {
      assert a + p + b == a + (p + b);
      TrimStartStrips(a, p + b);
      TrimEndStrips(p, b);
    }
  }

  lemma BlankTrims(s: string)
    requires Blank(s)
    ensures Trim(s) == ""
  {
    TrimStartStrips(s, "");
    assert s + "" == s;
  }

  // Lines

  /** The pieces between newline characters; there is always at least one. */
  function Split(s: string): (lines: seq<string>)
    ensures |lines| >= 1
  {
    if s == "" then [""]
    else if s[0] == '\n' then [""] + Split(s[1..])
    else
      var rest := Split(s[1..]);
      [[s[0]] + rest[0]] + rest[1..]
  }

  function Join(lines: seq<string>): string {
    if lines == [] then "" else if |lines| == 1 then lines[0] else lines[0] + "\n" + Join(lines[1..])
  }

  function Newlines(s: string): nat {
    if s == "" then 0 else (if s[0] == '\n' then 1 else 0) + Newlines(s[1..])
  }

  /** Glues two line lists where one text ends and the next begins. */
  function Glue(a: seq<string>, b: seq<string>): seq<string>
    requires |a| >= 1 && |b| >= 1
  {
    a[..|a| - 1] + [a[|a| - 1] + b[0]] + b[1..]
  }

  lemma GlueNewLine(line: string, a: seq<string>, b: seq<string>)
    requires |a| >= 1 && |b| >= 1
    ensures Glue([line] + a, b) == [line] + Glue(a, b)
  {
    assert ([line] + a)[..|a|] == [line] + a[..|a| - 1];
  }

  lemma GlueLongerLine(c: char, a: seq<string>, b: seq<string>)
    requires |a| >= 1 && |b| >= 1
    ensures var g := Glue(a, b);
            Glue([[c] + a[0]] + a[1..], b) == [[c] + g[0]] + g[1..]
  {
    if |a| == 1 {
      assert [c] + (a[0] + b[0]) == [c] + a[0] + b[0];
    } else {
      assert ([[c] + a[0]] + a[1..])[..|a| - 1] == [[c] + a[0]] + a[1..|a| - 1];
      assert Glue(a, b)[1..] == a[1..|a| - 1] + [a[|a| - 1] + b[0]] + b[1..];
    }
  }

  lemma {:induction false} SplitConcat(a: string, b: string)
    ensures Split(a + b) == Glue(Split(a), Split(b))
  {
    if a == "" {
      assert a + b == b;
      assert "" + Split(b)[0] == Split(b)[0];
      assert Glue([""], Split(b)) == [Split(b)[0]] + Split(b)[1..] == Split(b);
    } else {
      SplitConcat(a[1..], b);
      assert (a + b)[1..] == a[1..] + b;
      if a[0] == '\n' {
        GlueNewLine("", Split(a[1..]), Split(b));
      } else {
        GlueLongerLine(a[0], Split(a[1..]), Split(b));
      }
    }
  }

  lemma {:induction false} SplitCountsNewlines(s: string)
    ensures |Split(s)| == Newlines(s) + 1
  {
    if s != "" {
      SplitCountsNewlines(s[1..]);
    }
  }

  predicate IsLine(s: string) {
    '\n' !in s
  }

  lemma {:induction false} SplitLine(s: string)
    requires IsLine(s)
    ensures Split(s) == [s]
  {
    if s != "" {
      assert forall c :: c in s[1..] ==> c in s;
      SplitLine(s[1..]);
      assert [s[0]] + s[1..] == s;
    }
  }

  lemma {:induction false} SplitYieldsLines(s: string)
    ensures forall i :: 0 <= i < |Split(s)| ==> IsLine(Split(s)[i])
  {
    if s != "" {
      SplitYieldsLines(s[1..]);
    }
  }

  lemma SplitAfterLine(line: string, rest: string)
    requires IsLine(line)
    ensures Split(line + "\n" + rest) == [line] + Split(rest)
  {
    SplitLine(line);
    assert line + "\n" + rest == line + ("\n" + rest);
    SplitConcat(line, "\n" + rest);
    assert ("\n" + rest)[1..] == rest;
    assert line + "" == line;
  }

  lemma {:induction false} SplitJoin(lines: seq<string>)
    requires |lines| >= 1 && forall i :: 0 <= i < |lines| ==> IsLine(lines[i])
    ensures Split(Join(lines)) == lines
  {
    if |lines| == 1 {
      SplitLine(lines[0]);
    } else {
      SplitJoin(lines[1..]);
      SplitAfterLine(lines[0], Join(lines[1..]));
    }
  }
}
