/** Names for a batch of bots, and the division of a batch into chunks for worker processes. */
module BotNames {
  import opened Collections
  import opened Text

  const MAX_MINECRAFT_USERNAME_LENGTH := 16
  const MAX_BOTS_PER_WORKER := 50

  function BasePrefix(namePrefix: string): (r: string)
    ensures r != ""
  {
    if Trim(namePrefix) == "" then "bot" else Trim(namePrefix)
  }

  function Suffix(index: nat): string {
    "-" + Digits(index + 1)
  }

  /** Bot number `index`: as much of the prefix as fits before the suffix, but at least one character. */
  function BotName(basePrefix: string, index: nat): string {
    var maxPrefixLength := Max(1, MAX_MINECRAFT_USERNAME_LENGTH - |Suffix(index)|);
    basePrefix[..Min(|basePrefix|, maxPrefixLength)] + Suffix(index)
  }

  method BuildBotNames(namePrefix: string, count: int) returns (names: seq<string>)
    ensures |names| == Max(count, 0)
    ensures forall i :: 0 <= i < |names| ==> names[i] == BotName(BasePrefix(namePrefix), i)
    ensures forall i, j :: 0 <= i < j < |names| ==> names[i] != names[j]
  {
    var basePrefix := BasePrefix(namePrefix);
    names := [];
    var index := 0;
    while index < count
      invariant 0 <= index <= Max(count, 0) && |names| == index
      invariant forall i :: 0 <= i < |names| ==> names[i] == BotName(basePrefix, i)
    {
      var suffix := "-" + Digits(index + 1);
      var maxPrefixLength := Max(1, MAX_MINECRAFT_USERNAME_LENGTH - |suffix|);
      names := names + [basePrefix[..Min(|basePrefix|, maxPrefixLength)] + suffix];
      index := index + 1;
    }
    forall i, j | 0 <= i < j < |names|
      ensures names[i] != names[j]
    {
      NamesAreDistinct(basePrefix, basePrefix, i, j);
    }
  }

  /** What follows the last dash, or all of it. */
  function AfterLastDash(s: string): string {
    if s == "" || s[|s| - 1] == '-' then "" else AfterLastDash(s[..|s| - 1]) + [s[|s| - 1]]
  }

  lemma {:induction false} AfterLastDashOf(front: string, tail: string)
    requires '-' !in tail
    ensures AfterLastDash(front + "-" + tail) == tail
  {
    var s := front + "-" + tail;
    if tail != "" {
      var n := |tail| - 1;
      assert tail[n] in tail;
      assert s[..|s| - 1] == front + "-" + tail[..n];
      assert forall c :: c in tail[..n] ==> c in tail;
      AfterLastDashOf(front, tail[..n]);
      assert tail == tail[..n] + [tail[n]];
    }
  }

  /** The index can be read back from any name, whatever dashes the prefix holds. */
  lemma IndexIsRecoverable(basePrefix: string, index: nat)
    ensures Numeral(AfterLastDash(BotName(basePrefix, index))) == index + 1
  {
    var front := BotName(basePrefix, index)[..|BotName(basePrefix, index)| - |Suffix(index)|];
    assert BotName(basePrefix, index) == front + "-" + Digits(index + 1);
    AfterLastDashOf(front, Digits(index + 1));
    NumeralOfDigits(index + 1);
  }

  lemma NamesAreDistinct(p: string, q: string, i: nat, j: nat)
    requires i != j
    ensures BotName(p, i) != BotName(q, j)
  {
    IndexIsRecoverable(p, i);
    IndexIsRecoverable(q, j);
  }

  /**
   The limit of sixteen characters is kept exactly up to the first 10^14 - 1 names of a batch,
   and every name starts with at least one character of the prefix.
   */
  lemma NameFitsIff(basePrefix: string, index: nat)
    requires basePrefix != ""
    ensures |BotName(basePrefix, index)| <= MAX_MINECRAFT_USERNAME_LENGTH <==> index + 1 < Pow10(14)
    ensures BotName(basePrefix, index)[0] == basePrefix[0]
    ensures |BotName(basePrefix, index)| > |Suffix(index)|
  {
    DigitsLengthExact(index + 1, 14);
  }

  /** The prefix of a batch is what was asked for without the white space around it, or "bot". */
  lemma PrefixIsKept(before: string, prefix: string, after: string)
    requires Blank(before) && Blank(after) && Bare(prefix)
    ensures BasePrefix(before + prefix + after) == if prefix == "" then "bot" else prefix
  {
    TrimStrips(before, prefix, after);
  }

  /** A name is the whole prefix, a dash and the number counted from one, when these fit; else as much of it as fits. */
  lemma NameShowsPrefix(basePrefix: string, index: nat)
    requires basePrefix != ""
    ensures var name, number := BotName(basePrefix, index), Digits(index + 1);
            && (|basePrefix| + 1 + |number| <= 16 ==> name == basePrefix + "-" + number)
            && (|basePrefix| + 1 + |number| > 16 && |number| < 15 ==>
                  |name| == 16 && name == basePrefix[..15 - |number|] + "-" + number)
  {
  }

  /** Non-empty chunks of the given size, only the last possibly shorter, that concatenate to `arr`. */
  method Chunk<T>(arr: seq<T>, size: nat) returns (result: seq<seq<T>>)
    requires size > 0
    ensures Flatten(result) == arr
    ensures forall i :: 0 <= i < |result| ==> 0 < |result[i]| <= size
    ensures forall i :: 0 <= i < |result| - 1 ==> |result[i]| == size
  {
    result := [];
    var i := 0;
    while i < |arr|
      invariant 0 <= i && Flatten(result) == arr[..Min(i, |arr|)]
      invariant forall k :: 0 <= k < |result| ==> 0 < |result[k]| <= size
      invariant i <= |arr| ==> forall k :: 0 <= k < |result| ==> |result[k]| == size
      invariant forall k :: 0 <= k < |result| - 1 ==> |result[k]| == size
      decreases |arr| - i
    {
      var chunk := arr[i..Min(i + size, |arr|)];
      assert (result + [chunk])[..|result|] == result;
      assert arr[..i] + chunk == arr[..Min(i + size, |arr|)];
      result := result + [chunk];
      i := i + size;
    }
  }
}
