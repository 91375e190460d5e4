/**
 Whole runs of one file task under every interleaving of the executor's sections, progress
 reports and any number of concurrent cancels.
 */
module FileTaskRuns {
  import opened Collections
  import opened Text
  import opened FileTask

  // Terminal states

  /** Once the state is terminal it is the same at every later point. */
  predicate Absorbs(t: Task, es: seq<Event>)
    requires Valid(t, es)
    decreases es
  {
    es == [] ||
    ((Terminal(t.row.state) ==> Step(t, es[0]).row.state == t.row.state) && Absorbs(Step(t, es[0]), es[1..]))
  }

  predicate CompletionNeverThrows(es: seq<Event>) {
    forall e :: e in es ==> !(e.Succeed? && e.throws)
  }

  predicate NoCancelBegins(es: seq<Event>) {
    forall e :: e in es ==> !e.CancelBegin?
  }

  /** Every cancel begins after the section that writes RUNNING, which runs before `submit` settles. */
  predicate CancelsFollowStart(t: Task, es: seq<Event>)
    requires Valid(t, es)
    decreases es
  {
    es == [] ||
    ((es[0].CancelBegin? ==> t.phase != Created && t.phase != Starting)
     && CancelsFollowStart(Step(t, es[0]), es[1..]))
  }

  /** A cancel is under way that read a live state. */
  predicate LiveCancel(t: Task) {
    exists i :: 0 <= i < |t.cancels| && !Terminal(t.cancels[i])
  }

  /** The catch block handles an exception that was thrown after the COMPLETED write. */
  predicate CatchesCompletion(t: Task, e: Event) {
    t.phase == CompletionThrew && e.Fail? && !t.aborted
  }

  predicate NeverCatchesCompletion(t: Task, es: seq<Event>)
    requires Valid(t, es)
    decreases es
  {
    es == [] || (!CatchesCompletion(t, es[0]) && NeverCatchesCompletion(Step(t, es[0]), es[1..]))
  }

  ghost predicate Guarded(t: Task) {
    && (t.phase == Created || t.phase == Starting ==> t.row.state == PENDING && t.cancels == [])
    && (t.phase == Executing || t.phase == CompletionThrew || t.row.state == COMPLETED ==> t.strategyRuns >= 1)
    && (t.phase == CompletionThrew ==> t.row.state == COMPLETED)
    && (LiveCancel(t) ==> t.aborted || t.phase == Gone)
    && (t.row.state == COMPLETED || t.row.state == FAILED ==>
          (t.phase == Finished || t.phase == Gone || t.phase == CompletionThrew) && !LiveCancel(t))
    && (t.row.state == CANCELLED ==> t.aborted || t.phase == Gone)
  }

  /** A terminal state changes in one way only: by the catch block after a completion that threw. */
  lemma GuardedStep(t: Task, e: Event)
    requires Guarded(t) && Enabled(t, e)
    requires e.CancelBegin? ==> t.phase != Created && t.phase != Starting
    ensures Guarded(Step(t, e))
    ensures Terminal(t.row.state) ==> (Step(t, e).row.state == t.row.state <==> !CatchesCompletion(t, e))
  {
    var t' := Step(t, e);
    if e.CancelBegin? {
      assert forall i :: 0 <= i < |t.cancels| ==> t'.cancels[i] == t.cancels[i];
      if LiveCancel(t') && Terminal(t.row.state) {
        var i :| 0 <= i < |t'.cancels| && !Terminal(t'.cancels[i]);
        assert t'.cancels[i] == t.cancels[i];
      }
    } else if e.CancelWrite? {
      var n := e.index;
      assert forall i :: 0 <= i < |t'.cancels| ==> t'.cancels[i] == t.cancels[if i < n then i else i + 1];
      if !Terminal(t.cancels[n]) {
        assert LiveCancel(t);
      }
    } else {
      assert t'.cancels == t.cancels;
    }
  }

  lemma {:induction false} GuardedRun(t: Task, es: seq<Event>)
    requires Guarded(t) && Valid(t, es) && CancelsFollowStart(t, es)
    ensures Guarded(Run(t, es))
    ensures NeverCatchesCompletion(t, es) ==> Absorbs(t, es)
    decreases es
  {
    if es != [] {
      GuardedStep(t, es[0]);
      GuardedRun(Step(t, es[0]), es[1..]);
    }
  }

  lemma {:induction false} CaughtRunDoesNotAbsorb(t: Task, es: seq<Event>)
    requires Guarded(t) && Valid(t, es) && CancelsFollowStart(t, es) && !NeverCatchesCompletion(t, es)
    ensures !Absorbs(t, es)
    decreases es
  {
    GuardedStep(t, es[0]);
    if !CatchesCompletion(t, es[0]) {
      CaughtRunDoesNotAbsorb(Step(t, es[0]), es[1..]);
    }
  }

  lemma {:induction false} QuietCompletionIsNotCaught(t: Task, es: seq<Event>)
    requires Valid(t, es) && CompletionNeverThrows(es) && t.phase != CompletionThrew
    ensures NeverCatchesCompletion(t, es)
    decreases es
  {
    if es != [] {
      assert es[0] in es && forall e :: e in es[1..] ==> e in es;
      QuietCompletionIsNotCaught(Step(t, es[0]), es[1..]);
    }
  }

  /**
   Terminal-state absorption, exactly: whatever the interleaving of sections and of cancels that
   begin once the task has started, a row that reaches COMPLETED, FAILED or CANCELLED keeps that
   state throughout the run if and only if the catch block never handles an exception thrown
   after the COMPLETED write. If nothing throws there, it always does.
   */
  lemma TerminalStatesAreFinal(taskId: string, kind: Kind, es: seq<Event>)
    requires Valid(Submitted(taskId, kind), es) && CancelsFollowStart(Submitted(taskId, kind), es)
    ensures Absorbs(Submitted(taskId, kind), es) <==> NeverCatchesCompletion(Submitted(taskId, kind), es)
    ensures CompletionNeverThrows(es) ==> Absorbs(Submitted(taskId, kind), es)
  {
    var t := Submitted(taskId, kind);
    GuardedRun(t, es);
    if !NeverCatchesCompletion(t, es) {
      CaughtRunDoesNotAbsorb(t, es);
    }
    if CompletionNeverThrows(es) {
      QuietCompletionIsNotCaught(t, es);
    }
  }

  /** Every continuation keeps terminal states. */
  ghost predicate AlwaysAbsorbs(t: Task) {
    forall es :: Valid(t, es) && CancelsFollowStart(t, es) ==> Absorbs(t, es)
  }

  /** The catch block is out of reach: the coroutine is over, or it was aborted. */
  predicate CannotCatch(t: Task) {
    t.aborted || t.phase == Finished || t.phase == Gone
  }

  lemma {:induction false} CannotCatchRun(t: Task, es: seq<Event>)
    requires Valid(t, es) && CannotCatch(t)
    ensures NeverCatchesCompletion(t, es)
    decreases es
  {
    if es != [] {
      CannotCatchRun(Step(t, es[0]), es[1..]);
    }
  }

  lemma CannotCatchAbsorbs(t: Task)
    requires Guarded(t) && CannotCatch(t)
    ensures AlwaysAbsorbs(t)
  {
    forall es | Valid(t, es) && CancelsFollowStart(t, es)
      ensures Absorbs(t, es)
    {
      CannotCatchRun(t, es);
      GuardedRun(t, es);
    }
  }

  /** For a coroutine whose strategy has just succeeded: the completion is final unless it throws unaborted. */
  lemma CompletionAbsorbsIff(t: Task, artifact: string, throws: bool)
    requires Guarded(t) && t.phase == Executing
    ensures AlwaysAbsorbs(Succeeded(t, artifact, throws)) <==> t.aborted || !throws
  {
    var done := Succeeded(t, artifact, throws);
    GuardedStep(t, Succeed(artifact, throws));
    assert Step(t, Succeed(artifact, throws)) == done;
    if t.aborted || !throws {
      CannotCatchAbsorbs(done);
    } else {
      var fail := Fail(NonRecoverable, false);
      CaughtAtOnce(done, fail);
      CaughtRunDoesNotAbsorb(done, [fail]);
    }
  }

  lemma CaughtAtOnce(t: Task, e: Event)
    requires CatchesCompletion(t, e)
    ensures Valid(t, [e]) && CancelsFollowStart(t, [e]) && !NeverCatchesCompletion(t, [e])
  {
    var es := [e];
    assert es[0] == e && es[1..] == [];
    assert Enabled(t, e);
  }

  /**
   At any point of any run where the strategy succeeds: every continuation keeps terminal states
   if and only if the task was aborted before or nothing throws after the COMPLETED write.
   */
  lemma CompletionIsFinalIff(taskId: string, kind: Kind, es: seq<Event>, artifact: string, throws: bool)
    requires Valid(Submitted(taskId, kind), es) && CancelsFollowStart(Submitted(taskId, kind), es)
    requires Run(Submitted(taskId, kind), es).phase == Executing
    ensures var t := Run(Submitted(taskId, kind), es);
            AlwaysAbsorbs(Succeeded(t, artifact, throws)) <==> t.aborted || !throws
  {
    GuardedRun(Submitted(taskId, kind), es);
    CompletionAbsorbsIff(Run(Submitted(taskId, kind), es), artifact, throws);
  }

  /**
   A first cancel may begin at a given point with every continuation keeping terminal states
   exactly when the coroutine is past its start section: before that, the start section
   overwrites CANCELLED with RUNNING. Afterwards not even a completion that throws matters.
   */
  lemma CancelIsSafeIff(taskId: string, kind: Kind, es: seq<Event>)
    requires Valid(Submitted(taskId, kind), es) && NoCancelBegins(es)
    ensures var t := Run(Submitted(taskId, kind), es);
            AlwaysAbsorbs(CancelBegun(t)) <==> t.phase != Created && t.phase != Starting
  {
    var t0 := Submitted(taskId, kind);
    NoCancelFollowsStart(t0, es);
    GuardedRun(t0, es);
    var t := Run(t0, es);
    if t.phase == Created || t.phase == Starting {
      EarlyCancelIsLost(t);
    } else {
      assert Enabled(t, CancelBegin) && Step(t, CancelBegin) == CancelBegun(t);
      GuardedStep(t, CancelBegin);
      CannotCatchAbsorbs(CancelBegun(t));
    }
  }

  lemma {:induction false} NoCancelFollowsStart(t: Task, es: seq<Event>)
    requires Valid(t, es) && NoCancelBegins(es)
    ensures CancelsFollowStart(t, es)
    decreases es
  {
    if es != [] {
      assert es[0] in es && forall e :: e in es[1..] ==> e in es;
      NoCancelFollowsStart(Step(t, es[0]), es[1..]);
    }
  }

  lemma EarlyCancelIsLost(t: Task)
    requires Guarded(t) && (t.phase == Created || t.phase == Starting)
    ensures !AlwaysAbsorbs(CancelBegun(t))
  {
    var c := CancelBegun(t);
    var cancelled := CancelWritten(c, 0);
    assert c.cancels == [PENDING] && cancelled.row.state == CANCELLED;
    if t.phase == Starting {
      StartRevives(cancelled);
      Before(c, CancelWrite(0), [Start(false)]);
    } else {
      var launched := Step(cancelled, Launch(true));
      StartRevives(launched);
      Before(cancelled, Launch(true), [Start(false)]);
      Before(c, CancelWrite(0), [Launch(true)] + [Start(false)]);
    }
  }

  /** A run that breaks absorption. */
  ghost predicate Breaks(t: Task, es: seq<Event>) {
    Valid(t, es) && CancelsFollowStart(t, es) && !Absorbs(t, es)
  }

  lemma StartRevives(t: Task)
    requires t.phase == Starting && t.row.state == CANCELLED
    ensures Breaks(t, [Start(false)])
  {
    assert [Start(false)][1..] == [];
    assert Step(t, Start(false)).row.state == RUNNING;
  }

  lemma Before(t: Task, e: Event, tail: seq<Event>)
    requires Enabled(t, e) && !e.CancelBegin? && Breaks(Step(t, e), tail)
    ensures Breaks(t, [e] + tail)
  {
    assert ([e] + tail)[1..] == tail;
  }

  /** The COMPLETED write sits inside the try block, so an exception after it reports a failure. */
  lemma ThrowAfterCompletionBreaksIt(taskId: string, kind: Kind) returns (es: seq<Event>)
    ensures Valid(Submitted(taskId, kind), es) && NoCancelBegins(es)
    ensures !Absorbs(Submitted(taskId, kind), es)
  {
    var t0 := Submitted(taskId, kind);
    var t3 := Step(Step(Step(t0, Launch(true)), Start(false)), EnterLoop);
    var t4 := Step(t3, Succeed("", true));
    var tail := [Fail(NonRecoverable, false)];
    assert tail[1..] == [];
    assert t4.row.state == COMPLETED && Step(t4, tail[0]).row.state == FAILED;
    assert Valid(t4, tail) && !Absorbs(t4, tail);
    es := Prepend(t3, Succeed("", true), tail);
    es := Prepend(Step(Step(t0, Launch(true)), Start(false)), EnterLoop, es);
    es := Prepend(Step(t0, Launch(true)), Start(false), es);
    es := Prepend(t0, Launch(true), es);
  }

  lemma Prepend(t: Task, e: Event, tail: seq<Event>) returns (es: seq<Event>)
    requires Enabled(t, e) && Valid(Step(t, e), tail) && !Absorbs(Step(t, e), tail)
    requires NoCancelBegins(tail) && !e.CancelBegin?
    ensures Valid(t, es) && !Absorbs(t, es) && NoCancelBegins(es)
  {
    es := [e] + tail;
    assert es[1..] == tail;
  }

  // What else of a completed row is final

  ghost predicate ProgressIsFinal(t: Task) {
    forall es :: Valid(t, es) ==> Run(t, es).row.progress == t.row.progress
  }

  ghost predicate ArtifactIsFinal(t: Task) {
    forall es :: Valid(t, es) ==> Run(t, es).row.artifact == t.row.artifact
  }

  /** The completion threw, unaborted, and a failure that may be retried would run the strategy again. */
  predicate MayRunAgain(t: Task) {
    t.phase == CompletionThrew && !t.aborted && IsRetryableKind(t.row.kind) && t.attempt < t.maxAttempts
  }

  /** No later section writes the result of a strategy. */
  predicate Settled(t: Task) {
    t.phase == Finished || t.phase == Gone || (t.phase == CompletionThrew && !MayRunAgain(t))
  }

  lemma {:induction false} SettledKeepsArtifact(t: Task, es: seq<Event>)
    requires Settled(t) && Valid(t, es)
    ensures Run(t, es).row.artifact == t.row.artifact
    ensures t.aborted ==> Run(t, es).row.progress == t.row.progress
    decreases es
  {
    if es != [] {
      SettledKeepsArtifact(Step(t, es[0]), es[1..]);
    }
  }

  lemma {:induction false} RunOne(t: Task, e: Event, tail: seq<Event>)
    requires Enabled(t, e) && Valid(Step(t, e), tail)
    ensures Valid(t, [e] + tail) && Run(t, [e] + tail) == Run(Step(t, e), tail)
  {
    assert ([e] + tail)[1..] == tail;
  }

  lemma LateProgress(t: Task)
    requires t.strategyRuns >= 1 && !t.aborted
    ensures !ProgressIsFinal(t)
  {
    var e := Progress(if t.row.progress == 0 then 1.0 else 0.0);
    RunOne(t, e, []);
    assert Run(t, [e] + []).row.progress == UpdateProgress(t.row, e.fraction).progress;
  }

  lemma SecondResult(t: Task)
    requires MayRunAgain(t) && t.row.artifact.Some?
    ensures !ArtifactIsFinal(t)
  {
    var t1 := Step(t, Fail(NetworkTimeout, false));
    var t2 := Step(t1, Resume);
    var t3 := Step(t2, EnterLoop);
    var other := t.row.artifact.value + "'";
    var e := Succeed(other, false);
    RunOne(t3, e, []);
    RunOne(t2, EnterLoop, [e] + []);
    RunOne(t1, Resume, [EnterLoop] + ([e] + []));
    RunOne(t, Fail(NetworkTimeout, false), [Resume] + ([EnterLoop] + ([e] + [])));
    assert |other| == |t.row.artifact.value| + 1;
  }

  lemma CompletedRowIsFinal(t: Task)
    requires Guarded(t) && t.row.state == COMPLETED && t.row.artifact.Some?
    ensures ProgressIsFinal(t) <==> t.aborted
    ensures ArtifactIsFinal(t) <==> !MayRunAgain(t)
  {
    if t.aborted {
      forall es | Valid(t, es)
        ensures Run(t, es).row.progress == t.row.progress
      {
        SettledKeepsArtifact(t, es);
      }
    } else {
      LateProgress(t);
    }
    if MayRunAgain(t) {
      SecondResult(t);
    } else {
      forall es | Valid(t, es)
        ensures Run(t, es).row.artifact == t.row.artifact
      {
        SettledKeepsArtifact(t, es);
      }
    }
  }

  lemma {:induction false} CompletedHasArtifact(t: Task, es: seq<Event>)
    requires Valid(t, es) && (t.row.state == COMPLETED ==> t.row.artifact.Some?)
    ensures Run(t, es).row.state == COMPLETED ==> Run(t, es).row.artifact.Some?
    decreases es
  {
    if es != [] {
      CompletedHasArtifact(Step(t, es[0]), es[1..]);
    }
  }

  /**
   In every run, whenever the row is COMPLETED: its progress is final exactly when the task is
   aborted, for a strategy may still report progress otherwise, and its artifact is final
   unless the completion threw and a retry would run the strategy again.
   */
  lemma CompletedRowIsFinalIff(taskId: string, kind: Kind, es: seq<Event>)
    requires Valid(Submitted(taskId, kind), es) && CancelsFollowStart(Submitted(taskId, kind), es)
    requires Run(Submitted(taskId, kind), es).row.state == COMPLETED
    ensures var t := Run(Submitted(taskId, kind), es);
            (ProgressIsFinal(t) <==> t.aborted) && (ArtifactIsFinal(t) <==> !MayRunAgain(t))
  {
    GuardedRun(Submitted(taskId, kind), es);
    CompletedHasArtifact(Submitted(taskId, kind), es);
    CompletedRowIsFinal(Run(Submitted(taskId, kind), es));
  }

  // Attempts, tokens and the reason for a failure

  /** Holds throughout every run, cancels and exceptions at any time included. */
  ghost predicate Consistent(t: Task) {
    && 1 <= t.row.attempt <= t.row.maxAttempts
    && t.row.maxAttempts == (if IsRetryableKind(t.row.kind) then DEFAULT_RETRYABLE_MAX_ATTEMPTS else DEFAULT_ATTEMPTS)
    && (t.phase == Created ==>
          t.strategyRuns == 0 && t.attempt == 0 && t.row.attempt == 1 && t.row.resumeToken == None)
    && (t.phase != Created && t.attempt > 0 ==>
          1 <= t.attempt <= t.maxAttempts && t.maxAttempts == t.row.maxAttempts)
    && (t.phase != Created && t.phase != Gone && t.phase != Finished ==> t.attempt > 0)
    && (t.phase == Starting || t.phase == LoopHead ==> t.strategyRuns == t.attempt - 1 && t.attempt == t.row.attempt)
    && (t.phase == Executing || t.phase == CompletionThrew ==>
          t.strategyRuns == t.attempt && t.attempt == t.row.attempt)
    && (t.phase.Waiting? ==>
          t.phase.nextAttempt == t.attempt + 1 == t.row.attempt <= t.maxAttempts && t.strategyRuns == t.attempt)
    && t.strategyRuns <= t.row.maxAttempts
    && (t.row.resumeToken.Some? ==> t.row.resumeToken.value == ResumeToken(t.row.taskId, t.row.attempt))
    && (t.row.state == COMPLETED || t.row.state == CANCELLED ==> t.row.resumeToken == None)
    && (t.row.state == FAILED ==> (t.phase == Finished || t.phase == Gone) && FailedForGoodReason(t))
  }

  /** The kind has no strategy, or the recorded failure may not be retried, or no attempt is left. */
  predicate FailedForGoodReason(t: Task) {
    match t.row.failureClass
    case None => t.strategyRuns == 0
    case Some(failure) => !IsRetryable(t.row.kind, failure) || t.row.attempt == t.row.maxAttempts
  }

  lemma ConsistentOutcome(t: Task, e: Event)
    requires Consistent(t) && Enabled(t, e) && (e.Succeed? || e.Fail?)
    ensures Consistent(Step(t, e))
  {
    assert t.attempt > 0;
  }

  lemma ConsistentCancelBegin(t: Task)
    requires Consistent(t)
    ensures Consistent(CancelBegun(t))
  {
  }

  lemma ConsistentCancelWrite(t: Task, index: nat)
    requires Consistent(t) && index < |t.cancels|
    ensures Consistent(CancelWritten(t, index))
  {
  }

  lemma ConsistentStep(t: Task, e: Event)
    requires Consistent(t) && Enabled(t, e)
    ensures Consistent(Step(t, e))
  {
    if e.Succeed? || e.Fail? {
      ConsistentOutcome(t, e);
    } else if e.CancelBegin? {
      ConsistentCancelBegin(t);
    } else if e.CancelWrite? {
      ConsistentCancelWrite(t, e.index);
    }
  }

  /**
   In every run: the strategy runs at most `maxAttempts` times, which is once for a kind that
   is not retryable; FAILED is only stored for a failure that may not be retried or when the
   attempts are used up; a resume token names the stored attempt and never survives
   completion or cancellation.
   */
  lemma {:induction false} RunsAreConsistent(t: Task, es: seq<Event>)
    requires Consistent(t) && Valid(t, es)
    ensures Consistent(Run(t, es))
    decreases es
  {
    if es != [] {
      ConsistentStep(t, es[0]);
      RunsAreConsistent(Step(t, es[0]), es[1..]);
    }
  }

  lemma TaskRunsAreConsistent(taskId: string, kind: Kind, es: seq<Event>)
    requires Valid(Submitted(taskId, kind), es)
    ensures var t := Run(Submitted(taskId, kind), es);
            && Consistent(t)
            && t.strategyRuns <= DEFAULT_RETRYABLE_MAX_ATTEMPTS
            && (!IsRetryableKind(kind) ==> t.strategyRuns <= 1)
  {
    RunsAreConsistent(Submitted(taskId, kind), es);
    KindIsFixed(Submitted(taskId, kind), es);
  }

  lemma {:induction false} KindIsFixed(t: Task, es: seq<Event>)
    requires Valid(t, es)
    ensures Run(t, es).row.kind == t.row.kind && Run(t, es).row.taskId == t.row.taskId
    decreases es
  {
    if es != [] {
      KindIsFixed(Step(t, es[0]), es[1..]);
    }
  }

  /** The token determines the attempt it was built for. */
  lemma TokenNamesAttempt(taskId: string, m: nat, n: nat)
    requires ResumeToken(taskId, m) == ResumeToken(taskId, n)
    ensures m == n
  {
    var k := |taskId + ":attempt:"|;
    assert ResumeToken(taskId, m)[k..] == Digits(m);
    assert ResumeToken(taskId, n)[k..] == Digits(n);
    DigitsInjective(m, n);
  }

  // Termination

  predicate IsExecutorStep(e: Event) {
    !e.Progress? && !e.CancelBegin? && !e.CancelWrite?
  }

  function CountExecutorSteps(es: seq<Event>): nat {
    if es == [] then 0 else (if IsExecutorStep(es[0]) then 1 else 0) + CountExecutorSteps(es[1..])
  }

  /** What is left to do: at most four sections per attempt not yet begun, plus those of the current one. */
  function Remaining(t: Task): int {
    match t.phase
    case Created => 4 * t.row.maxAttempts + 4
    case Starting => 4 * (t.maxAttempts - t.attempt) + 7
    case LoopHead => 4 * (t.maxAttempts - t.attempt) + 6
    case Executing => 4 * (t.maxAttempts - t.attempt) + 5
    case CompletionThrew => 4 * (t.maxAttempts - t.attempt) + 4
    case Waiting(next) => 4 * (t.maxAttempts - next) + 7
    case Finished => 1
    case Gone => 0
  }

  lemma StepUsesUp(t: Task, e: Event)
    requires Consistent(t) && Enabled(t, e)
    ensures 0 <= Remaining(Step(t, e))
    ensures Remaining(Step(t, e)) + (if IsExecutorStep(e) then 1 else 0) <= Remaining(t)
  {
    ConsistentStep(t, e);
    RemainingIsNat(Step(t, e));
    if e.Fail? {
      FailUsesUp(t, e);
    }
  }

  lemma RemainingIsNat(t: Task)
    requires Consistent(t)
    ensures 0 <= Remaining(t)
  {
  }

  lemma FailUsesUp(t: Task, e: Event)
    requires Consistent(t) && e.Fail? && Enabled(t, e)
    ensures Remaining(Step(t, e)) < Remaining(t)
  {
  }

  /** The executor takes a bounded number of sections, however cancels and progress interleave. */
  lemma {:induction false} ExecutorTerminates(t: Task, es: seq<Event>)
    requires Consistent(t) && Valid(t, es)
    ensures CountExecutorSteps(es) + Remaining(Run(t, es)) <= Remaining(t)
    ensures 0 <= Remaining(Run(t, es)) || es == []
    decreases es
  {
    if es != [] {
      StepUsesUp(t, es[0]);
      ConsistentStep(t, es[0]);
      ExecutorTerminates(Step(t, es[0]), es[1..]);
    }
  }

  /** From submission on there are at most sixteen sections, eight for a kind that is not retryable. */
  lemma TaskTerminates(taskId: string, kind: Kind, es: seq<Event>)
    requires Valid(Submitted(taskId, kind), es)
    ensures CountExecutorSteps(es) <= if IsRetryableKind(kind) then 16 else 8
  {
    ExecutorTerminates(Submitted(taskId, kind), es);
  }
}
