/**
 Deduplication of in-game chat that many bots see at once: the first sighting is broadcast and
 recorded, later sightings within the window only raise its viewer count. The bounded,
 pruned buffer of the service is shown to decide exactly like the unbounded record of all
 broadcasts.
 */
module ChatDedup {
  import opened Collections

  datatype Record = Record(message: string, firstBot: string, timestamp: int, viewers: nat)

  datatype ChatMessage = ChatMessage(botName: string, message: string, timestamp: int)

  /** A call with its two clock readings: one for the cutoff, a later one for the new record. */
  datatype Push = Push(message: ChatMessage, now: int, recordedAt: int)

  const CHAT_DEDUP_WINDOW_MS := 1_500
  const CHAT_DEDUP_MAX_ENTRIES := 200
  const CHAT_BUFFER_MAX_ENTRIES := 500

  predicate Matches(r: Record, message: string, cutoff: int) {
    r.message == message && r.timestamp >= cutoff
  }

  /** The first matching record at or after `from`, or the number of records. */
  function FirstMatch(h: seq<Record>, from: nat, message: string, cutoff: int): (r: nat)
    requires from <= |h|
    ensures from <= r <= |h|
    ensures r < |h| ==> Matches(h[r], message, cutoff)
    ensures forall i :: from <= i < r ==> !Matches(h[i], message, cutoff)
    decreases |h| - from
  {
    if from == |h| || Matches(h[from], message, cutoff) then from else FirstMatch(h, from + 1, message, cutoff)
  }

  /** Only the latest 200 records can absorb a sighting. */
  function WindowStart(h: seq<Record>): nat {
    Max(0, |h| - CHAT_DEDUP_MAX_ENTRIES)
  }

  function Absorber(h: seq<Record>, p: Push): nat {
    FirstMatch(h, WindowStart(h), p.message.message, p.now - CHAT_DEDUP_WINDOW_MS)
  }

  predicate IsDuplicate(h: seq<Record>, p: Push) {
    Absorber(h, p) < |h|
  }

  function Pushed(h: seq<Record>, p: Push): seq<Record> {
    var i := Absorber(h, p);
    if i < |h| then h[i := h[i].(viewers := h[i].viewers + 1)]
    else h + [Record(p.message.message, p.message.botName, p.recordedAt, 1)]
  }

  /** All records after a run of calls. */
  function Records(pushes: seq<Push>): seq<Record> {
    if pushes == [] then [] else Pushed(Records(pushes[..|pushes| - 1]), pushes[|pushes| - 1])
  }

  ghost predicate ClockMonotone(pushes: seq<Push>) {
    && (forall i :: 0 <= i < |pushes| ==> pushes[i].now <= pushes[i].recordedAt)
    && (forall i, j :: 0 <= i < j < |pushes| ==> pushes[i].recordedAt <= pushes[j].now)
  }

  function Viewers(h: seq<Record>): nat {
    if h == [] then 0 else Viewers(h[..|h| - 1]) + h[|h| - 1].viewers
  }

  lemma {:induction false} ViewersUpdate(h: seq<Record>, i: nat)
    requires i < |h|
    ensures Viewers(h[i := h[i].(viewers := h[i].viewers + 1)]) == Viewers(h) + 1
  {
    var h' := h[i := h[i].(viewers := h[i].viewers + 1)];
    var n := |h| - 1;
    if i < n {
      ViewersUpdate(h[..n], i);
      assert h'[..n] == h[..n][i := h[i].(viewers := h[i].viewers + 1)];
    } else {
      assert h'[..n] == h[..n];
    }
  }

  /** No sighting is lost: the viewer counts of all records ever made add up to the calls. */
  lemma {:induction false} ViewersSumToPushes(pushes: seq<Push>)
    ensures Viewers(Records(pushes)) == |pushes|
  {
    if pushes != [] {
      var h, p := Records(pushes[..|pushes| - 1]), pushes[|pushes| - 1];
      ViewersSumToPushes(pushes[..|pushes| - 1]);
      if IsDuplicate(h, p) {
        ViewersUpdate(h, Absorber(h, p));
      } else {
        assert Pushed(h, p)[..|h|] == h;
      }
    }
  }

  ghost predicate TimeSorted(h: seq<Record>) {
    forall i, j :: 0 <= i < j < |h| ==> h[i].timestamp <= h[j].timestamp
  }

  ghost predicate UpTo(h: seq<Record>, clock: int) {
    TimeSorted(h) && forall i :: 0 <= i < |h| ==> h[i].timestamp <= clock
  }

  /** Records with equal text are far apart in time, or at least 200 other records lie between. */
  ghost predicate Spaced(h: seq<Record>) {
    forall i, j :: 0 <= i < j < |h| && h[i].message == h[j].message ==>
      h[j].timestamp - h[i].timestamp > CHAT_DEDUP_WINDOW_MS || j - i - 1 >= CHAT_DEDUP_MAX_ENTRIES
  }

  lemma PushedKeepsSpacing(h: seq<Record>, p: Push)
    requires Spaced(h) && TimeSorted(h) && p.now <= p.recordedAt
    requires forall i :: 0 <= i < |h| ==> h[i].timestamp <= p.now
    ensures Spaced(Pushed(h, p)) && TimeSorted(Pushed(h, p))
    ensures forall i :: 0 <= i < |Pushed(h, p)| ==> Pushed(h, p)[i].timestamp <= p.recordedAt
  {
    var h' := Pushed(h, p);
    assert forall i :: 0 <= i < |h| ==> h'[i].timestamp == h[i].timestamp && h'[i].message == h[i].message;
    if !IsDuplicate(h, p) {
      forall i | 0 <= i < |h| && h[i].message == p.message.message
        ensures p.recordedAt - h[i].timestamp > CHAT_DEDUP_WINDOW_MS || |h| - i - 1 >= CHAT_DEDUP_MAX_ENTRIES
      {
        if i >= WindowStart(h) {
          assert !Matches(h[i], p.message.message, p.now - CHAT_DEDUP_WINDOW_MS);
        }
      }
    }
  }

  /**
   In every run, two broadcasts of the same text at most 1500 ms apart have at least 200 other
   broadcasts between them.
   */
  lemma {:induction false} RepeatsAreSpaced(pushes: seq<Push>)
    requires ClockMonotone(pushes)
    ensures Spaced(Records(pushes)) && TimeSorted(Records(pushes))
    ensures forall i :: 0 <= i < |Records(pushes)| ==>
              |pushes| > 0 && Records(pushes)[i].timestamp <= pushes[|pushes| - 1].recordedAt
  {
    if pushes != [] {
      var n := |pushes| - 1;
      RepeatsAreSpaced(pushes[..n]);
      if n > 0 {
        assert pushes[..n][n - 1].recordedAt <= pushes[n].now;
      }
      PushedKeepsSpacing(Records(pushes[..n]), pushes[n]);
    }
  }

  // When a message is broadcast

  /** One of the last 200 records has the text of the message and is at most 1500 ms old. */
  predicate Tells(h: seq<Record>, i: int, p: Push) {
    && 0 <= i < |h| && |h| - 200 <= i
    && h[i].message == p.message.message && h[i].timestamp >= p.now - 1500
  }

  ghost predicate IsTold(h: seq<Record>, p: Push) {
    exists i :: Tells(h, i, p)
  }

  /** Exactly the first such record gains a viewer. */
  ghost predicate GainsViewer(h: seq<Record>, h': seq<Record>, p: Push) {
    exists i ::
      && Tells(h, i, p) && (forall j :: 0 <= j < i ==> !Tells(h, j, p))
      && h' == h[i := Record(h[i].message, h[i].firstBot, h[i].timestamp, h[i].viewers + 1)]
  }

  /**
   A push makes a new record, with its text, its bot, the time and one viewer, if and only if none of
   the last 200 records has its text within the last 1500 ms. Otherwise the first of those that do
   gains a viewer and nothing else changes.
   */
  lemma PushIsNewIff(h: seq<Record>, p: Push)
    ensures IsDuplicate(h, p) <==> IsTold(h, p)
    ensures if IsTold(h, p) then GainsViewer(h, Pushed(h, p), p)
            else Pushed(h, p) == h + [Record(p.message.message, p.message.botName, p.recordedAt, 1)]
  {
    var a := Absorber(h, p);
    assert forall i :: WindowStart(h) <= i < a ==> !Matches(h[i], p.message.message, p.now - CHAT_DEDUP_WINDOW_MS);
    if a < |h| {
      assert Tells(h, a, p);
      assert forall j :: 0 <= j < a ==> !Tells(h, j, p);
    } else {
      assert forall i :: !Tells(h, i, p);
    }
  }

  /** Records are never removed and keep their text, bot and time. */
  ghost predicate Extends(h: seq<Record>, h': seq<Record>) {
    && |h| <= |h'|
    && forall i :: 0 <= i < |h| ==>
         h'[i].message == h[i].message && h'[i].firstBot == h[i].firstBot && h'[i].timestamp == h[i].timestamp
  }

  lemma {:induction false} RecordsExtend(pushes: seq<Push>, k: nat)
    requires k <= |pushes|
    ensures Extends(Records(pushes[..k]), Records(pushes))
  {
    var n := |pushes| - 1;
    if k <= n {
      RecordsExtend(pushes[..n], k);
      assert pushes[..n][..k] == pushes[..k];
      PushIsNewIff(Records(pushes[..n]), pushes[n]);
    } else {
      assert pushes[..k] == pushes;
    }
  }

  /**
   In every run every text that was pushed was also broadcast, at most 1500 ms before the push or by
   the push itself.
   */
  lemma EveryTextIsBroadcast(pushes: seq<Push>, k: nat) returns (i: nat)
    requires ClockMonotone(pushes) && k < |pushes|
    ensures var h := Records(pushes);
            && i < |h| && h[i].message == pushes[k].message.message
            && pushes[k].now - 1500 <= h[i].timestamp <= pushes[k].recordedAt
  {
    var h, p := Records(pushes[..k]), pushes[k];
    assert pushes[..k + 1][..k] == pushes[..k];
    assert Records(pushes[..k + 1]) == Pushed(h, p);
    PushIsNewIff(h, p);
    assert forall j :: 0 <= j < k ==> pushes[..k][j] == pushes[j];
    RepeatsAreSpaced(pushes[..k]);
    if IsTold(h, p) {
      i :| Tells(h, i, p);
    } else {
      i := |h|;
    }
    RecordsExtend(pushes, k + 1);
  }

  /** The service: a dedup buffer and a buffer of recent chat, both bounded. */
  class BotRealtimeService {
    var chatDedupBuffer: seq<Record>
    var chatBuffer: seq<ChatMessage>
    /** All records ever made, all messages broadcast, and the latest clock reading. */
    ghost var records: seq<Record>
    ghost var broadcasts: seq<ChatMessage>
    ghost var clock: int

    constructor ()
      ensures Valid() && records == [] && broadcasts == []
    {
      chatDedupBuffer, chatBuffer, records, broadcasts, clock := [], [], [], [], 0;
    }

    ghost predicate Valid()
      reads this
    {
      && Remembered(records, chatDedupBuffer, clock)
      && |broadcasts| == |records|
      && (forall i :: 0 <= i < |records| ==>
            records[i].message == broadcasts[i].message && records[i].firstBot == broadcasts[i].botName)
      && chatBuffer == broadcasts[Max(0, |broadcasts| - CHAT_BUFFER_MAX_ENTRIES)..]
    }

    /** Drops leading entries older than the cutoff; no entry older than that remains. */
    method PruneExpired(cutoff: int)
      requires TimeSorted(records) && Distinct(chatDedupBuffer) && clock - CHAT_DEDUP_WINDOW_MS <= cutoff
      requires Faithful(records, chatDedupBuffer, clock - CHAT_DEDUP_WINDOW_MS)
      modifies this`chatDedupBuffer
      ensures Faithful(records, chatDedupBuffer, cutoff) && Distinct(chatDedupBuffer)
      ensures forall i :: 0 <= i < |chatDedupBuffer| ==> chatDedupBuffer[i].timestamp >= cutoff
    {
      ghost var before := chatDedupBuffer;
      ghost var k: nat := 0;
      while |chatDedupBuffer| > 0 && chatDedupBuffer[0].timestamp < cutoff
        invariant k <= |before| && chatDedupBuffer == before[k..]
        invariant forall i :: 0 <= i < k ==> before[i].timestamp < cutoff
        decreases |chatDedupBuffer|
      {
        chatDedupBuffer := chatDedupBuffer[1..];
        k := k + 1;
      }
      PrunedIsFaithful(records, before, k, cutoff, clock - CHAT_DEDUP_WINDOW_MS);
      PrunedIsDistinct(before, k);
    }

    method FindDuplicate(message: string, cutoff: int) returns (index: nat)
      ensures index == FirstMatch(chatDedupBuffer, 0, message, cutoff)
    {
      index := 0;
      while index < |chatDedupBuffer| && !Matches(chatDedupBuffer[index], message, cutoff)
        invariant 0 <= index <= |chatDedupBuffer|
        invariant FirstMatch(chatDedupBuffer, 0, message, cutoff) == FirstMatch(chatDedupBuffer, index, message, cutoff)
      {
        index := index + 1;
      }
    }

    /** Appends to the bounded chat buffer. */
    method KeepChat(message: ChatMessage)
      requires chatBuffer == broadcasts[Max(0, |broadcasts| - CHAT_BUFFER_MAX_ENTRIES)..]
      modifies this`chatBuffer, this`broadcasts
      ensures broadcasts == old(broadcasts) + [message]
      ensures chatBuffer == broadcasts[Max(0, |broadcasts| - CHAT_BUFFER_MAX_ENTRIES)..]
    {
      ghost var all, dropped: nat := broadcasts + [message], Max(0, |broadcasts| - CHAT_BUFFER_MAX_ENTRIES);
      SuffixSnoc(broadcasts, dropped, message);
      broadcasts := all;
      chatBuffer := chatBuffer + [message];
      while |chatBuffer| > CHAT_BUFFER_MAX_ENTRIES
        invariant broadcasts == all
        invariant dropped <= Max(0, |all| - CHAT_BUFFER_MAX_ENTRIES) && chatBuffer == all[dropped..]
      {
        SuffixTail(all, dropped);
        chatBuffer, dropped := chatBuffer[1..], dropped + 1;
      }
    }

    /** Prunes, then notes the sighting, in the buffer entry it matches or as a new record. */
    method Remember(message: ChatMessage, now: int, recordedAt: int) returns (recorded: bool)
      requires Remembered(records, chatDedupBuffer, clock) && clock <= now <= recordedAt
      modifies this`chatDedupBuffer, this`records, this`clock
      ensures var p := Push(message, now, recordedAt);
              && records == Pushed(old(records), p) && clock == recordedAt
              && (recorded <==> !IsDuplicate(old(records), p))
      ensures Remembered(records, chatDedupBuffer, clock)
    {
      var cutoff := now - CHAT_DEDUP_WINDOW_MS;
      PruneExpired(cutoff);
      var existing := FindDuplicate(message.message, cutoff);
      ghost var p := Push(message, now, recordedAt);
      UpToLater(records, clock, now);
      recorded := existing == |chatDedupBuffer|;
      NoteSighting(message, recordedAt, p, existing);
    }

    /** Notes the sighting and brings the records up to date. */
    method NoteSighting(message: ChatMessage, recordedAt: int, ghost p: Push, existing: nat)
      requires p.message == message && p.recordedAt == recordedAt
      requires CanNote(records, chatDedupBuffer, p, existing)
      modifies this`chatDedupBuffer, this`records, this`clock
      ensures records == Pushed(old(records), p) && clock == recordedAt
      ensures existing < |old(chatDedupBuffer)| <==> IsDuplicate(old(records), p)
      ensures Remembered(records, chatDedupBuffer, clock)
    {
      SightingStep(records, chatDedupBuffer, p, existing);
      Note(message, recordedAt, p, existing);
      records, clock := Pushed(records, p), recordedAt;
    }

    /** Counts the viewer of an existing entry, or appends a new entry and drops the oldest beyond the limit. */
    method Note(message: ChatMessage, recordedAt: int, ghost p: Push, existing: nat)
      requires existing <= |chatDedupBuffer| && p.message == message && p.recordedAt == recordedAt
      modifies this`chatDedupBuffer
      ensures chatDedupBuffer == Seen(old(chatDedupBuffer), p, existing)
    {
      if existing < |chatDedupBuffer| {
        var entry := chatDedupBuffer[existing];
        chatDedupBuffer := chatDedupBuffer[existing := entry.(viewers := entry.viewers + 1)];
        return;
      }
      chatDedupBuffer := chatDedupBuffer + [Record(message.message, message.botName, recordedAt, 1)];
      if |chatDedupBuffer| > CHAT_DEDUP_MAX_ENTRIES {
        chatDedupBuffer := chatDedupBuffer[1..];
      }
    }

    /** A message is broadcast exactly when none of the last 200 records holds its text within the window. */
    method PushChatMessage(message: ChatMessage, now: int, recordedAt: int) returns (broadcast: bool)
      requires Valid() && clock <= now <= recordedAt
      modifies this
      ensures Valid() && clock == recordedAt && records == Pushed(old(records), Push(message, now, recordedAt))
      ensures broadcast <==> !IsTold(old(records), Push(message, now, recordedAt))
      ensures if broadcast then records == old(records) + [Record(message.message, message.botName, recordedAt, 1)]
              else GainsViewer(old(records), records, Push(message, now, recordedAt))
      ensures broadcasts == if broadcast then old(broadcasts) + [message] else old(broadcasts)
      ensures chatBuffer == broadcasts[Max(0, |broadcasts| - 500)..]
    {
      PushIsNewIff(records, Push(message, now, recordedAt));
      broadcast := Remember(message, now, recordedAt);
      if broadcast {
        KeepChat(message);
      }
    }
  }

  lemma SuffixSnoc<T>(s: seq<T>, k: nat, x: T)
    requires k <= |s|
    ensures s[k..] + [x] == (s + [x])[k..]
  {
  }

  lemma SuffixTail<T>(s: seq<T>, k: nat)
    requires k < |s|
    ensures s[k..][1..] == s[k + 1..]
  {
  }

  /** The pruned buffer, searched for the text of `p`. */
  ghost predicate CanNote(h: seq<Record>, buffer: seq<Record>, p: Push, existing: nat) {
    && UpTo(h, p.now) && p.now <= p.recordedAt
    && Faithful(h, buffer, p.now - CHAT_DEDUP_WINDOW_MS) && Distinct(buffer)
    && (forall i :: 0 <= i < |buffer| ==> buffer[i].timestamp >= p.now - CHAT_DEDUP_WINDOW_MS)
    && existing == FirstMatch(buffer, 0, p.message.message, p.now - CHAT_DEDUP_WINDOW_MS)
  }

  lemma SightingStep(h: seq<Record>, buffer: seq<Record>, p: Push, existing: nat)
    requires CanNote(h, buffer, p, existing)
    ensures IsDuplicate(h, p) <==> existing < |buffer|
    ensures Remembered(Pushed(h, p), Seen(buffer, p, existing), p.recordedAt)
  {
    SameAbsorber(h, buffer, p);
    SightingIsFaithful(h, buffer, p, existing);
    SightingKeepsDistinct(buffer, p, existing);
    PushedStaysSorted(h, p);
  }

  lemma PushedStaysSorted(h: seq<Record>, p: Push)
    requires UpTo(h, p.now) && p.now <= p.recordedAt
    ensures UpTo(Pushed(h, p), p.recordedAt)
  {
    var h' := Pushed(h, p);
    assert forall i :: 0 <= i < |h| ==> h'[i].timestamp == h[i].timestamp;
  }

  /** What the buffer and the records have to do with each other at time `clock`. */
  ghost predicate Remembered(h: seq<Record>, buffer: seq<Record>, clock: int) {
    UpTo(h, clock) && Faithful(h, buffer, clock - CHAT_DEDUP_WINDOW_MS) && Distinct(buffer)
  }

  lemma UpToLater(h: seq<Record>, clock: int, now: int)
    requires UpTo(h, clock) && clock <= now
    ensures UpTo(h, now)
  {
  }

  lemma PrunedIsDistinct(before: seq<Record>, k: nat)
    requires k <= |before| && Distinct(before)
    ensures Distinct(before[k..])
  {
  }

  /**
   The buffer is the tail of the records, and what it lacks is either not among the last 200
   or older than the cutoff.
   */
  ghost predicate Faithful(h: seq<Record>, buffer: seq<Record>, cutoff: int) {
    && |buffer| <= CHAT_DEDUP_MAX_ENTRIES && |buffer| <= |h|
    && buffer == h[|h| - |buffer|..]
    && (forall i :: 0 <= i < |h| - |buffer| ==>
          i < |h| - CHAT_DEDUP_MAX_ENTRIES || h[i].timestamp < cutoff)
  }

  ghost predicate Distinct(buffer: seq<Record>) {
    forall i, j :: 0 <= i < j < |buffer| ==> buffer[i].message != buffer[j].message
  }

  /** The buffer after one more sighting, whose first match in it is `existing`. */
  function Seen(buffer: seq<Record>, p: Push, existing: nat): seq<Record>
    requires existing <= |buffer|
  {
    if existing < |buffer| then buffer[existing := buffer[existing].(viewers := buffer[existing].viewers + 1)]
    else
      var longer := buffer + [Record(p.message.message, p.message.botName, p.recordedAt, 1)];
      if |longer| > CHAT_DEDUP_MAX_ENTRIES then longer[1..] else longer
  }

  lemma SightingIsFaithful(h: seq<Record>, buffer: seq<Record>, p: Push, existing: nat)
    requires Faithful(h, buffer, p.now - CHAT_DEDUP_WINDOW_MS) && p.now <= p.recordedAt
    requires existing <= |buffer| && Absorber(h, p) == |h| - |buffer| + existing
    ensures Faithful(Pushed(h, p), Seen(buffer, p, existing), p.recordedAt - CHAT_DEDUP_WINDOW_MS)
  {
    var start := |h| - |buffer|;
    var h' := Pushed(h, p);
    assert forall i :: 0 <= i < |h| ==> h'[i].timestamp == h[i].timestamp;
    if existing < |buffer| {
      assert h[start + existing] == buffer[existing];
      assert Seen(buffer, p, existing) == h'[start..];
    } else {
      var longer := buffer + [Record(p.message.message, p.message.botName, p.recordedAt, 1)];
      assert longer == h'[start..];
      assert longer[1..] == h'[start + 1..];
    }
  }

  lemma SightingKeepsDistinct(buffer: seq<Record>, p: Push, existing: nat)
    requires Distinct(buffer)
    requires existing == FirstMatch(buffer, 0, p.message.message, p.now - CHAT_DEDUP_WINDOW_MS)
    requires forall i :: 0 <= i < |buffer| ==> buffer[i].timestamp >= p.now - CHAT_DEDUP_WINDOW_MS
    ensures Distinct(Seen(buffer, p, existing))
  {
    if existing == |buffer| {
      forall i | 0 <= i < |buffer|
        ensures buffer[i].message != p.message.message
      {
        assert !Matches(buffer[i], p.message.message, p.now - CHAT_DEDUP_WINDOW_MS);
      }
    }
  }

  /** After pruning the buffer holds exactly the latest records that are neither too many nor too old. */
  lemma PrunedIsFaithful(h: seq<Record>, before: seq<Record>, k: nat, cutoff: int, oldCutoff: int)
    requires TimeSorted(h) && Faithful(h, before, oldCutoff) && oldCutoff <= cutoff
    requires k <= |before| && forall i :: 0 <= i < k ==> before[i].timestamp < cutoff
    requires k < |before| ==> before[k].timestamp >= cutoff
    ensures Faithful(h, before[k..], cutoff)
    ensures forall i :: 0 <= i < |before[k..]| ==> before[k..][i].timestamp >= cutoff
  {
    var start := |h| - |before|;
    assert before[k..] == h[start + k..];
    forall i | 0 <= i < start + k
      ensures i < |h| - CHAT_DEDUP_MAX_ENTRIES || h[i].timestamp < cutoff
    {
      if i >= start {
        assert h[i] == before[i - start];
      }
    }
    var buffer := before[k..];
    forall i | 0 <= i < |buffer|
      ensures buffer[i].timestamp >= cutoff
    {
      assert buffer[i] == h[start + k + i] && buffer[0] == h[start + k];
    }
  }

  /** Searching the buffer and searching the last 200 records find the same entry. */
  lemma SameAbsorber(h: seq<Record>, buffer: seq<Record>, p: Push)
    requires Faithful(h, buffer, p.now - CHAT_DEDUP_WINDOW_MS)
    ensures Absorber(h, p) == |h| - |buffer| + FirstMatch(buffer, 0, p.message.message, p.now - CHAT_DEDUP_WINDOW_MS)
  {
    var message, cutoff := p.message.message, p.now - CHAT_DEDUP_WINDOW_MS;
    var a, b := Absorber(h, p), FirstMatch(buffer, 0, message, cutoff);
    var start := |h| - |buffer|;
    if a < |h| {
      assert a >= start;
      assert buffer[a - start] == h[a];
    }
    if b < |buffer| {
      assert h[start + b] == buffer[b];
    }
    forall i | 0 <= i < |buffer|
      ensures Matches(buffer[i], message, cutoff) <==> Matches(h[start + i], message, cutoff)
    {
    }
  }
}
