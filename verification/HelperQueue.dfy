/**
 The request queue of the Java helper: answers carry no request id and are matched to the oldest
 pending request. `wire` is what the helper has been asked and not yet answered; it answers in order.
 */
module HelperQueue {
  import opened Collections

  /** How a request was settled; a message that answers nothing has no `answerTo`. */
  datatype Settlement =
    | ByMessage(id: nat, answerTo: Option<nat>, isError: bool)
    | ByTimeout(id: nat)
    | ByRejection(id: nat)

  datatype State = State(
    running: bool,
    ready: bool,
    counter: nat,
    pending: seq<nat>,
    timers: set<nat>,
    wire: seq<nat>,
    settled: seq<Settlement>)

  /**
   `Exit(arriving)`: the process ends, and `arriving` of its answers are still in the pipe.
   `Stray`: a message that answers no request.
   */
  datatype Event =
    | Start
    | Ready
    | Send(writable: bool)
    | Answer(isError: bool)
    | Stray(isError: bool)
    | Timeout(id: nat)
    | Exit(arriving: nat)
    | Destroy

  const INITIAL := State(false, false, 0, [], {}, [], [])

  function Without(s: seq<nat>, x: nat): seq<nat> {
    if s == [] then []
    else
      var front := Without(s[..|s| - 1], x);
      if s[|s| - 1] == x then front else front + [s[|s| - 1]]
  }

  function Rejections(ids: seq<nat>): (r: seq<Settlement>)
    ensures |r| == |ids|
  {
    seq(|ids|, i requires 0 <= i < |ids| => ByRejection(ids[i]))
  }

  function SettleOldest(s: State, answerTo: Option<nat>, isError: bool): State {
    if s.pending == [] then s
    else
      var id := s.pending[0];
      s.(pending := s.pending[1..], timers := s.timers - {id}, settled := s.settled + [ByMessage(id, answerTo, isError)])
  }

  function RejectAll(s: State): State {
    s.(pending := [], timers := s.timers - (set id | id in s.pending), settled := s.settled + Rejections(s.pending))
  }

  function SendStep(s: State, writable: bool): State {
    if !s.running || !writable then s
    else
      var id := s.counter + 1;
      s.(counter := id, pending := s.pending + [id], timers := s.timers + {id}, wire := s.wire + [id])
  }

  function AnswerStep(s: State, isError: bool): State {
    if s.wire == [] then s else SettleOldest(s.(wire := s.wire[1..]), Some(s.wire[0]), isError)
  }

  function TimeoutStep(s: State, id: nat): State {
    if id !in s.timers then s
    else s.(pending := Without(s.pending, id), timers := s.timers - {id}, settled := s.settled + [ByTimeout(id)])
  }

  function ExitStep(s: State, arriving: nat): State {
    if !s.running then s
    else RejectAll(s.(running := false, ready := false, wire := s.wire[..Min(arriving, |s.wire|)]))
  }

  function Step(s: State, e: Event): State {
    match e
    case Start => s.(running := true)
    case Ready => s.(ready := true)
    case Send(writable) => SendStep(s, writable)
    case Answer(isError) => AnswerStep(s, isError)
    case Stray(isError) => SettleOldest(s, None, isError)
    case Timeout(id) => TimeoutStep(s, id)
    case Exit(arriving) => ExitStep(s, arriving)
    case Destroy => RejectAll(s)
  }

  function Run(es: seq<Event>): State {
    if es == [] then INITIAL else Step(Run(es[..|es| - 1]), es[|es| - 1])
  }

  // Order: pending requests are on the wire, both in issue order

  /** Request numbers in issue order. */
  ghost predicate Issued(s: seq<nat>, max: nat) {
    && (forall i :: 0 <= i < |s| ==> 1 <= s[i] <= max)
    && (forall i, j :: 0 <= i < j < |s| ==> s[i] < s[j])
  }

  lemma IssuedTail(s: seq<nat>, max: nat)
    requires Issued(s, max) && s != []
    ensures Issued(s[1..], max)
    ensures forall x :: x in s[1..] <==> x in s && x > s[0]
  {
    assert s == [s[0]] + s[1..];
    assert forall x :: x in s ==> x == s[0] || x in s[1..];
  }

  lemma IssuedNext(s: seq<nat>, max: nat)
    requires Issued(s, max)
    ensures Issued(s + [max + 1], max + 1)
  {
  }

  lemma {:induction false} WithoutMembers(s: seq<nat>, x: nat)
    ensures forall y :: y in Without(s, x) <==> y in s && y != x
  {
    if s != [] {
      var n := |s| - 1;
      WithoutMembers(s[..n], x);
      assert s == s[..n] + [s[n]];
    }
  }

  lemma {:induction false} IssuedWithout(s: seq<nat>, x: nat, max: nat)
    requires Issued(s, max)
    ensures Issued(Without(s, x), max)
  {
    if s != [] {
      var n := |s| - 1;
      var front := Without(s[..n], x);
      IssuedWithout(s[..n], x, max);
      WithoutMembers(s[..n], x);
      forall i | 0 <= i < |front|
        ensures front[i] < s[n]
      {
        assert front[i] in front;
      }
    }
  }

  function MessageIds(settled: seq<Settlement>): seq<nat> {
    if settled == [] then []
    else
      var front, last := MessageIds(settled[..|settled| - 1]), settled[|settled| - 1];
      if last.ByMessage? then front + [last.id] else front
  }

  ghost predicate InOrder(s: State) {
    && Issued(s.pending, s.counter) && Issued(s.wire, s.counter)
    && (forall id :: id in s.pending ==> id in s.wire)
    && s.timers == (set id | id in s.pending)
  }

  lemma SettleKeepsOrder(s: State, answerTo: Option<nat>, isError: bool)
    requires InOrder(s)
    ensures InOrder(SettleOldest(s, answerTo, isError))
  {
    if s.pending != [] {
      IssuedTail(s.pending, s.counter);
    }
  }

  /** The first request on the wire is not younger than the oldest pending one. */
  lemma OldestIsFirstOnWire(s: State)
    requires InOrder(s) && s.pending != []
    ensures s.wire != [] && s.wire[0] <= s.pending[0]
    ensures s.wire[0] in s.pending <==> s.wire[0] == s.pending[0]
  {
    assert s.pending[0] in s.pending && s.pending[0] in s.wire;
  }

  lemma AnswerKeepsOrder(s: State, isError: bool)
    requires InOrder(s)
    ensures InOrder(AnswerStep(s, isError))
  {
    if s.wire != [] {
      IssuedTail(s.wire, s.counter);
      if s.pending != [] {
        IssuedTail(s.pending, s.counter);
        OldestIsFirstOnWire(s);
      }
    }
  }

  lemma SendKeepsOrder(s: State, writable: bool)
    requires InOrder(s)
    ensures InOrder(SendStep(s, writable))
  {
    IssuedNext(s.pending, s.counter);
    IssuedNext(s.wire, s.counter);
  }

  lemma TimeoutKeepsOrder(s: State, id: nat)
    requires InOrder(s)
    ensures InOrder(TimeoutStep(s, id))
  {
    WithoutMembers(s.pending, id);
    IssuedWithout(s.pending, id, s.counter);
  }

  lemma StepKeepsOrder(s: State, e: Event)
    requires InOrder(s)
    ensures InOrder(Step(s, e))
  {
    match e
    case Start =>
    case Ready =>
    case Send(writable) => SendKeepsOrder(s, writable);
    case Answer(isError) => AnswerKeepsOrder(s, isError);
    case Stray(isError) => SettleKeepsOrder(s, None, isError);
    case Timeout(id) => TimeoutKeepsOrder(s, id);
    case Exit(arriving) =>
    case Destroy =>
  }

  lemma {:induction false} RunsAreInOrder(es: seq<Event>)
    ensures InOrder(Run(es))
  {
    if es != [] {
      RunsAreInOrder(es[..|es| - 1]);
      StepKeepsOrder(Run(es[..|es| - 1]), es[|es| - 1]);
    }
  }

  // Conservation: each request sent is pending or settled, once

  function Times(s: seq<nat>, id: nat): nat {
    if s == [] then 0 else Times(s[..|s| - 1], id) + if s[|s| - 1] == id then 1 else 0
  }

  function SettledTimes(settled: seq<Settlement>, id: nat): nat {
    if settled == [] then 0
    else SettledTimes(settled[..|settled| - 1], id) + if settled[|settled| - 1].id == id then 1 else 0
  }

  predicate ConservedAt(s: State, id: nat) {
    SettledTimes(s.settled, id) + Times(s.pending, id) == if 1 <= id <= s.counter then 1 else 0
  }

  lemma TimesSnoc(s: seq<nat>, x: nat, id: nat)
    ensures Times(s + [x], id) == Times(s, id) + if x == id then 1 else 0
  {
    assert (s + [x])[..|s|] == s;
  }

  lemma SettledTimesSnoc(settled: seq<Settlement>, x: Settlement, id: nat)
    ensures SettledTimes(settled + [x], id) == SettledTimes(settled, id) + if x.id == id then 1 else 0
  {
    assert (settled + [x])[..|settled|] == settled;
  }

  lemma {:induction false} TimesTail(s: seq<nat>, id: nat)
    requires s != []
    ensures Times(s, id) == Times(s[1..], id) + if s[0] == id then 1 else 0
  {
    var n := |s| - 1;
    if n > 0 {
      TimesTail(s[..n], id);
      assert s[..n][1..] == s[1..][..n - 1];
    }
  }

  lemma {:induction false} TimesWithout(s: seq<nat>, x: nat, id: nat)
    ensures Times(Without(s, x), id) == if id == x then 0 else Times(s, id)
  {
    if s != [] {
      var n := |s| - 1;
      TimesWithout(s[..n], x, id);
      TimesSnoc(Without(s[..n], x), s[n], id);
    }
  }

  lemma {:induction false} TimesPositive(s: seq<nat>, id: nat)
    ensures Times(s, id) > 0 <==> id in s
  {
    if s != [] {
      var n := |s| - 1;
      TimesPositive(s[..n], id);
      assert s == s[..n] + [s[n]];
    }
  }

  lemma {:induction false} SettledByRejections(settled: seq<Settlement>, ids: seq<nat>, id: nat)
    ensures SettledTimes(settled + Rejections(ids), id) == SettledTimes(settled, id) + Times(ids, id)
  {
    if ids == [] {
      assert settled + Rejections(ids) == settled;
    } else {
      var n := |ids| - 1;
      SettledByRejections(settled, ids[..n], id);
      assert settled + Rejections(ids) == (settled + Rejections(ids[..n])) + [ByRejection(ids[n])];
      SettledTimesSnoc(settled + Rejections(ids[..n]), ByRejection(ids[n]), id);
    }
  }

  lemma SettleConserves(s: State, answerTo: Option<nat>, isError: bool, id: nat)
    requires ConservedAt(s, id)
    ensures ConservedAt(SettleOldest(s, answerTo, isError), id)
  {
    if s.pending != [] {
      TimesTail(s.pending, id);
      SettledTimesSnoc(s.settled, ByMessage(s.pending[0], answerTo, isError), id);
    }
  }

  lemma TimeoutConserves(s: State, x: nat, id: nat)
    requires InOrder(s) && ConservedAt(s, id)
    ensures ConservedAt(TimeoutStep(s, x), id)
  {
    TimesWithout(s.pending, x, id);
    TimesPositive(s.pending, x);
    SettledTimesSnoc(s.settled, ByTimeout(x), id);
  }

  lemma SendConserves(s: State, writable: bool, id: nat)
    requires ConservedAt(s, id)
    ensures ConservedAt(SendStep(s, writable), id)
  {
    TimesSnoc(s.pending, s.counter + 1, id);
  }

  lemma StepConserves(s: State, e: Event, id: nat)
    requires InOrder(s) && ConservedAt(s, id)
    ensures ConservedAt(Step(s, e), id)
  {
    match e
    case Start =>
    case Ready =>
    case Send(writable) => SendConserves(s, writable, id);
    case Answer(isError) =>
      if s.wire != [] {
        SettleConserves(s.(wire := s.wire[1..]), Some(s.wire[0]), isError, id);
      }
    case Stray(isError) => SettleConserves(s, None, isError, id);
    case Timeout(x) => TimeoutConserves(s, x, id);
    case Exit(arriving) => SettledByRejections(s.settled, s.pending, id);
    case Destroy => SettledByRejections(s.settled, s.pending, id);
  }

  /** In every run each request sent is pending or settled exactly once, and no other ever is. */
  lemma {:induction false} EachRequestIsSettledOnce(es: seq<Event>, id: nat)
    ensures ConservedAt(Run(es), id)
  {
    if es != [] {
      var before := es[..|es| - 1];
      EachRequestIsSettledOnce(before, id);
      RunsAreInOrder(before);
      StepConserves(Run(before), es[|es| - 1], id);
    }
  }

  /** After exit or destroy nothing is pending, no timer is live and every request sent is settled. */
  lemma NothingIsPendingAfterEnd(es: seq<Event>, e: Event, id: nat)
    requires e.Destroy? || (e.Exit? && Run(es).running)
    ensures var s := Run(es + [e]);
            s.pending == [] && s.timers == {} && (1 <= id <= s.counter ==> SettledTimes(s.settled, id) == 1)
  {
    assert (es + [e])[..|es|] == es;
    RunsAreInOrder(es);
    EachRequestIsSettledOnce(es + [e], id);
  }

  // Answers settle requests in issue order

  ghost predicate AnswersInOrder(s: State) {
    var ids := MessageIds(s.settled);
    Issued(ids, s.counter) && (ids != [] && s.pending != [] ==> ids[|ids| - 1] < s.pending[0])
  }

  lemma MessageIdsSnoc(settled: seq<Settlement>, x: Settlement)
    ensures MessageIds(settled + [x]) == MessageIds(settled) + if x.ByMessage? then [x.id] else []
  {
    assert (settled + [x])[..|settled|] == settled;
  }

  lemma {:induction false} RejectionsAreNoMessages(settled: seq<Settlement>, ids: seq<nat>)
    ensures MessageIds(settled + Rejections(ids)) == MessageIds(settled)
  {
    if ids == [] {
      assert settled + Rejections(ids) == settled;
    } else {
      var n := |ids| - 1;
      RejectionsAreNoMessages(settled, ids[..n]);
      assert settled + Rejections(ids) == (settled + Rejections(ids[..n])) + [ByRejection(ids[n])];
      MessageIdsSnoc(settled + Rejections(ids[..n]), ByRejection(ids[n]));
    }
  }

  lemma SettleKeepsAnswersInOrder(s: State, answerTo: Option<nat>, isError: bool)
    requires Issued(s.pending, s.counter) && AnswersInOrder(s)
    ensures AnswersInOrder(SettleOldest(s, answerTo, isError))
  {
    if s.pending != [] {
      MessageIdsSnoc(s.settled, ByMessage(s.pending[0], answerTo, isError));
      IssuedSnoc(MessageIds(s.settled), s.pending[0], s.counter);
    }
  }

  lemma IssuedSnoc(s: seq<nat>, x: nat, max: nat)
    requires Issued(s, max) && 1 <= x <= max && (s != [] ==> s[|s| - 1] < x)
    ensures Issued(s + [x], max)
  {
  }

  /** What stays does not start before what was first. */
  lemma FirstLeft(s: seq<nat>, x: nat, max: nat)
    requires Issued(s, max)
    ensures var left := Without(s, x); left != [] ==> s != [] && s[0] <= left[0]
  {
    var left := Without(s, x);
    WithoutMembers(s, x);
    if left != [] {
      assert left[0] in left;
      var k :| 0 <= k < |s| && s[k] == left[0];
    }
  }

  lemma TimeoutKeepsAnswersInOrder(s: State, id: nat)
    requires Issued(s.pending, s.counter) && AnswersInOrder(s)
    ensures AnswersInOrder(TimeoutStep(s, id))
  {
    if id in s.timers {
      MessageIdsSnoc(s.settled, ByTimeout(id));
      FirstLeft(s.pending, id, s.counter);
    }
  }

  lemma StepKeepsAnswersInOrder(s: State, e: Event)
    requires InOrder(s) && AnswersInOrder(s)
    ensures AnswersInOrder(Step(s, e))
  {
    match e
    case Start =>
    case Ready =>
    case Send(writable) =>
    case Answer(isError) =>
      if s.wire != [] {
        SettleKeepsAnswersInOrder(s.(wire := s.wire[1..]), Some(s.wire[0]), isError);
      }
    case Stray(isError) => SettleKeepsAnswersInOrder(s, None, isError);
    case Timeout(id) => TimeoutKeepsAnswersInOrder(s, id);
    case Exit(arriving) => RejectionsAreNoMessages(s.settled, s.pending);
    case Destroy => RejectionsAreNoMessages(s.settled, s.pending);
  }

  /** In every run, messages settle requests in the order in which the requests were sent. */
  lemma {:induction false} MessagesSettleInIssueOrder(es: seq<Event>)
    ensures AnswersInOrder(Run(es))
  {
    if es != [] {
      var before := es[..|es| - 1];
      MessagesSettleInIssueOrder(before);
      RunsAreInOrder(before);
      StepKeepsAnswersInOrder(Run(before), es[|es| - 1]);
    }
  }

  // Whose answer is it

  /**
   In every run the next answer settles the request it answers exactly when that request is
   still pending; if it is not, the answer goes to the oldest other pending request, if any.
   */
  lemma AnswerReachesItsRequestIff(es: seq<Event>, isError: bool)
    requires Run(es).wire != []
    ensures var s, s' := Run(es), Run(es + [Answer(isError)]);
            var own := s.wire[0];
            && (SettledTimes(s.settled, own) == 0 <==>
                s'.settled == s.settled + [ByMessage(own, Some(own), isError)])
            && (SettledTimes(s.settled, own) > 0 && s.pending != [] ==>
                s.pending[0] != own && s'.settled == s.settled + [ByMessage(s.pending[0], Some(own), isError)])
            && (s.pending == [] ==> s'.settled == s.settled)
  {
    assert (es + [Answer(isError)])[..|es|] == es;
    var s := Run(es);
    RunsAreInOrder(es);
    EachRequestIsSettledOnce(es, s.wire[0]);
    TimesPositive(s.pending, s.wire[0]);
    if s.pending != [] {
      OldestIsFirstOnWire(s);
      var settled' := SettleOldest(s.(wire := s.wire[1..]), Some(s.wire[0]), isError).settled;
      assert settled'[|s.settled|].id == s.pending[0];
    } else {
      assert |s.settled + [ByMessage(s.wire[0], Some(s.wire[0]), isError)]| == |s.settled| + 1;
    }
  }

  /** When the oldest request times out before its answer, the late answer goes to the next request. */
  lemma LateAnswerIsMisdelivered(es: seq<Event>, isError: bool)
    requires |Run(es).pending| >= 2 && Run(es).wire != [] && Run(es).wire[0] == Run(es).pending[0]
    ensures var s := Run(es);
            var own, next := s.pending[0], s.pending[1];
            Run(es + [Timeout(own)] + [Answer(isError)]).settled ==
            s.settled + [ByTimeout(own)] + [ByMessage(next, Some(own), isError)]
  {
    var s := Run(es);
    var own := s.pending[0];
    RunsAreInOrder(es);
    RunSnoc(es, Timeout(own));
    RunSnoc(es + [Timeout(own)], Answer(isError));
    assert own in s.pending;
    WithoutFirst(s.pending, s.counter);
  }

  lemma RunSnoc(es: seq<Event>, e: Event)
    ensures Run(es + [e]) == Step(Run(es), e)
  {
    assert (es + [e])[..|es|] == es;
  }

  lemma {:induction false} WithoutFirst(s: seq<nat>, max: nat)
    requires s != [] && Issued(s, max)
    ensures Without(s, s[0]) == s[1..]
  {
    var n := |s| - 1;
    if n > 0 {
      WithoutFirst(s[..n], max);
      assert s[1..] == s[..n][1..] + [s[n]];
    }
  }

  /** No timeout, no stray message, no destroy, and no answer arriving after the process ended. */
  predicate Calm(e: Event) {
    e in {Start, Ready} || e.Send? || e.Answer? || e == Exit(0)
  }

  ghost predicate Consecutive(s: State) {
    && s.wire == s.pending
    && s.counter == |s.settled| + |s.pending|
    && (forall i :: 0 <= i < |s.pending| ==> s.pending[i] == |s.settled| + 1 + i)
    && (forall k :: 0 <= k < |s.settled| ==> s.settled[k].id == k + 1)
    && (forall k :: 0 <= k < |s.settled| && s.settled[k].ByMessage? ==> s.settled[k].answerTo == Some(k + 1))
  }

  /** In calm runs the k-th settlement is that of the k-th request, and every answer reaches its own. */
  lemma {:induction false} CalmRunsMatch(es: seq<Event>)
    requires forall e :: e in es ==> Calm(e)
    ensures Consecutive(Run(es))
  {
    if es != [] {
      var before, e := es[..|es| - 1], es[|es| - 1];
      assert forall x :: x in before ==> x in es;
      assert e in es;
      CalmRunsMatch(before);
    }
  }

  // What is sent, and what becomes of it

  /** The process was started and has not exited since. */
  predicate IsUp(es: seq<Event>) {
    es != [] && match es[|es| - 1] {
      case Start => true
      case Exit(_) => false
      case _ => IsUp(es[..|es| - 1])
    }
  }

  /** The requests written to a process that was up. */
  function SentCount(es: seq<Event>): nat {
    if es == [] then 0
    else
      var before := es[..|es| - 1];
      SentCount(before) + if es[|es| - 1] == Send(true) && IsUp(before) then 1 else 0
  }

  lemma {:induction false} RequestsAreNumbered(es: seq<Event>)
    ensures Run(es).running == IsUp(es) && Run(es).counter == SentCount(es)
  {
    if es != [] {
      RequestsAreNumbered(es[..|es| - 1]);
    }
  }

  /**
   In every run a number belongs to a request exactly when that many were sent, and each of these is
   pending or was settled once, never both.
   */
  lemma EverySentRequestIsKnown(es: seq<Event>, id: nat)
    ensures id in Run(es).pending || SettledTimes(Run(es).settled, id) > 0 <==> 1 <= id <= SentCount(es)
    ensures id in Run(es).pending ==> SettledTimes(Run(es).settled, id) == 0
    ensures SettledTimes(Run(es).settled, id) <= 1
  {
    RequestsAreNumbered(es);
    EachRequestIsSettledOnce(es, id);
    TimesPositive(Run(es).pending, id);
  }

  /** A request that is written is the newest pending one and the last the helper will answer. */
  lemma SendOutcome(es: seq<Event>)
    requires IsUp(es)
    ensures var s, s', id := Run(es), Run(es + [Send(true)]), SentCount(es) + 1;
            s'.pending == s.pending + [id] && s'.wire == s.wire + [id] && s'.settled == s.settled && id !in s.pending
  {
    RequestsAreNumbered(es);
    RunSnoc(es, Send(true));
    EverySentRequestIsKnown(es, SentCount(es) + 1);
  }

  /** A timeout settles its own request if that is pending, keeps the order of the others, and else does nothing. */
  lemma TimeoutOutcome(es: seq<Event>, id: nat)
    ensures var s, s' := Run(es), Run(es + [Timeout(id)]);
            && s'.wire == s.wire
            && (if id in s.pending then s'.settled == s.settled + [ByTimeout(id)] else s' == s)
            && (forall x :: x in s'.pending <==> x in s.pending && x != id)
            && (forall i, j :: 0 <= i < j < |s'.pending| ==> s'.pending[i] < s'.pending[j])
  {
    RunSnoc(es, Timeout(id));
    RunsAreInOrder(es);
    RunsAreInOrder(es + [Timeout(id)]);
    WithoutMembers(Run(es).pending, id);
  }

  /** A message that answers no request settles the oldest pending one all the same. */
  lemma StrayOutcome(es: seq<Event>, isError: bool)
    ensures var s, s' := Run(es), Run(es + [Stray(isError)]);
            && s'.wire == s.wire
            && if s.pending == [] then s' == s
               else s'.pending == s.pending[1..] && s'.settled == s.settled + [ByMessage(s.pending[0], None, isError)]
  {
    RunSnoc(es, Stray(isError));
  }

  ghost predicate AllRejected(s: State, s': State) {
    && s'.pending == [] && |s'.settled| == |s.settled| + |s.pending| && s.settled <= s'.settled
    && forall i :: 0 <= i < |s.pending| ==> s'.settled[|s.settled| + i] == ByRejection(s.pending[i])
  }

  lemma RejectOutcome(s: State)
    ensures AllRejected(s, RejectAll(s))
  {
  }

  /** When the process exits or is destroyed all pending requests are rejected in the order of sending. */
  lemma EndOutcome(es: seq<Event>, e: Event)
    requires e.Destroy? || (e.Exit? && IsUp(es))
    ensures AllRejected(Run(es), Run(es + [e]))
  {
    RequestsAreNumbered(es);
    RunSnoc(es, e);
    if e.Exit? {
      var s := Run(es);
      RejectOutcome(s.(running := false, ready := false, wire := s.wire[..Min(e.arriving, |s.wire|)]));
    } else {
      RejectOutcome(Run(es));
    }
  }

  /** Of the answers still owed by a process that exits only those in the pipe arrive. */
  lemma ExitCutsAnswers(es: seq<Event>, arriving: nat)
    requires IsUp(es)
    ensures var s, s' := Run(es), Run(es + [Exit(arriving)]);
            s'.wire == s.wire[..Min(arriving, |s.wire|)] && !s'.running && !s'.ready
  {
    RequestsAreNumbered(es);
    RunSnoc(es, Exit(arriving));
  }
}
