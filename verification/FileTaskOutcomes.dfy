/**
 What each section of the executor and each cancel leaves in a task's row, in plain terms, at any
 point of any run from submission: which failures are tried again, what a finished row holds, and
 when the strategy has run for the last time.
 */
module FileTaskOutcomes {
  import opened Collections
  import opened Text
  import opened FileTask
  import opened FileTaskRuns

  /** Kinds of task that may be tried up to three times. */
  predicate MayRetry(kind: Kind) {
    kind == UPLOAD || kind == PACK_DOWNLOAD || kind == REMOTE_DOWNLOAD || kind == DIR_COPY || kind == DIR_MOVE
  }

  /** Failures of the connection, as against those of the request. */
  predicate IsPassing(failure: FailureClass) {
    failure == NetworkTimeout || failure == RemoteClosed
  }

  function AttemptsOf(kind: Kind): nat {
    if MayRetry(kind) then 3 else 1
  }

  function TokenFor(taskId: string, attempt: nat): Option<string> {
    Some(taskId + ":attempt:" + Digits(attempt))
  }

  /** A task at some point of a run from its submission. */
  ghost predicate Reachable(t: Task, taskId: string, kind: Kind, es: seq<Event>) {
    Valid(Submitted(taskId, kind), es) && t == Run(Submitted(taskId, kind), es)
  }

  /** Kind, id and number of attempts are fixed, and once launched the coroutine knows them. */
  lemma WhatIsFixed(t: Task, taskId: string, kind: Kind, es: seq<Event>)
    requires Reachable(t, taskId, kind, es)
    ensures t.row.taskId == taskId && t.row.kind == kind && t.row.maxAttempts == AttemptsOf(kind)
    ensures t.phase !in {Created, Finished, Gone} ==>
              1 <= t.attempt <= t.maxAttempts == AttemptsOf(kind) && t.retryable == MayRetry(kind)
    ensures t.phase == Starting ==> t.attempt == 1
  {
    TaskRunsAreConsistent(taskId, kind, es);
    KindIsFixed(Submitted(taskId, kind), es);
    RetryableIsFixed(Submitted(taskId, kind), es);
    FirstAttempt(Submitted(taskId, kind), es);
  }

  predicate KnowsKind(t: Task) {
    if t.phase == Created then t.row.retryable == MayRetry(t.row.kind)
    else t.phase == Gone || t.retryable == MayRetry(t.row.kind)
  }

  lemma {:induction false} RetryableIsFixed(t: Task, es: seq<Event>)
    requires KnowsKind(t) && Valid(t, es)
    ensures KnowsKind(Run(t, es))
    decreases es
  {
    if es != [] {
      RetryableIsFixed(Step(t, es[0]), es[1..]);
    }
  }

  predicate StartsAtOne(t: Task) {
    (t.phase == Created ==> t.row.attempt == 1) && (t.phase == Starting ==> t.attempt == 1)
  }

  lemma {:induction false} FirstAttempt(t: Task, es: seq<Event>)
    requires StartsAtOne(t) && Valid(t, es)
    ensures StartsAtOne(Run(t, es))
    decreases es
  {
    if es != [] {
      FirstAttempt(Step(t, es[0]), es[1..]);
    }
  }

  // The beginning

  /** A new task waits at its first attempt. */
  lemma NewTask(taskId: string, kind: Kind)
    ensures Submitted(taskId, kind).row ==
            Row(taskId, kind, PENDING, 1, AttemptsOf(kind), MayRetry(kind), None, None, 0, None)
  {
  }

  /** A kind without a strategy fails at once and without a failure class; any other starts. */
  lemma LaunchOutcome(t: Task, taskId: string, kind: Kind, es: seq<Event>, hasStrategy: bool)
    requires Reachable(t, taskId, kind, es) && t.phase == Created
    ensures var t' := Step(t, Launch(hasStrategy));
            if hasStrategy then t'.phase == Starting && t'.row == t.row && t'.aborted == t.aborted
            else t'.phase == Gone && t'.row == t.row.(state := FAILED, resumeToken := None, failureClass := None)
  {
  }

  /** The start section makes the row RUNNING at attempt 1, whatever was stored. */
  lemma StartOutcome(t: Task, taskId: string, kind: Kind, es: seq<Event>, throws: bool)
    requires Reachable(t, taskId, kind, es) && t.phase == Starting
    ensures var t' := Step(t, Start(throws));
            && t'.row == t.row.(state := RUNNING, attempt := 1, maxAttempts := AttemptsOf(kind), retryable := MayRetry(kind))
            && t'.phase == if throws then Finished else LoopHead
  {
    WhatIsFixed(t, taskId, kind, es);
  }

  /** The strategy is run once more if and only if the task was not aborted. */
  lemma LoopOutcome(t: Task)
    requires t.phase == LoopHead
    ensures var t' := Step(t, EnterLoop);
            && t'.row == t.row
            && (t'.phase == Executing && t'.strategyRuns == t.strategyRuns + 1 <==> !t.aborted)
            && (t.aborted ==> t'.phase == Finished && t'.strategyRuns == t.strategyRuns)
  {
  }

  /** Progress is a percentage rounded half up; an aborted task stores none. */
  lemma ProgressOutcome(t: Task, fraction: real)
    requires t.strategyRuns >= 1
    ensures var t' := Step(t, Progress(fraction));
            && t' == t.(row := t.row.(progress := t'.row.progress))
            && (t.aborted ==> t'.row.progress == t.row.progress)
            && (!t.aborted ==> IsPercentage(t'.row.progress, fraction))
  {
  }

  predicate IsPercentage(p: int, fraction: real) {
    if fraction <= 0.0 then p == 0
    else if fraction >= 1.0 then p == 100
    else p as real - 0.5 <= 100.0 * fraction < p as real + 0.5
  }

  // The end of a strategy

  /** A success is stored with its artifact and full progress, at the current attempt, unless aborted. */
  lemma SuccessOutcome(t: Task, taskId: string, kind: Kind, es: seq<Event>, artifact: string, throws: bool)
    requires Reachable(t, taskId, kind, es) && t.phase == Executing
    ensures var t' := Step(t, Succeed(artifact, throws));
            if t.aborted then t'.phase == Finished && t'.row == t.row
            else
              && t'.phase == (if throws then CompletionThrew else Finished)
              && t'.row == Row(taskId, kind, COMPLETED, t.attempt, AttemptsOf(kind), MayRetry(kind), None, None, 100, Some(artifact))
  {
    WhatIsFixed(t, taskId, kind, es);
  }

  predicate TriedAgain(kind: Kind, failure: FailureClass, attempt: nat) {
    MayRetry(kind) && IsPassing(failure) && attempt < 3
  }

  /** The row after a failure; `attempt` is the one that failed. */
  function AfterFailure(r: Row, failure: FailureClass, attempt: nat): Row {
    var passing := MayRetry(r.kind) && IsPassing(failure);
    var again := TriedAgain(r.kind, failure, attempt);
    var next := if again then attempt + 1 else attempt;
    Row(r.taskId, r.kind, if again then RUNNING else FAILED, next, AttemptsOf(r.kind), passing,
        if passing then TokenFor(r.taskId, next) else None, Some(failure), r.progress, r.artifact)
  }

  /**
   A failure of an unaborted task is tried again, as the next attempt, if and only if the kind is an
   upload, a download, a copy or a move, the connection failed and fewer than three attempts were
   made; otherwise the row is FAILED with the class of the failure. An aborted task stores nothing.
   */
  lemma FailureOutcome(t: Task, taskId: string, kind: Kind, es: seq<Event>, failure: FailureClass, throws: bool)
    requires Reachable(t, taskId, kind, es) && (t.phase == Executing || t.phase == CompletionThrew)
    ensures var t' := Step(t, Fail(failure, throws));
            if t.aborted then t'.phase == Finished && t'.row == t.row
            else
              && t'.row == AfterFailure(t.row, failure, t.attempt)
              && (t'.row.state == RUNNING <==> TriedAgain(kind, failure, t.attempt))
              && (t'.phase == Waiting(t.attempt + 1) <==> TriedAgain(kind, failure, t.attempt) && !throws)
              && (t'.phase == Finished <==> !TriedAgain(kind, failure, t.attempt) || throws)
  {
    WhatIsFixed(t, taskId, kind, es);
  }

  lemma {:induction false} NoMoreRuns(t: Task, es: seq<Event>)
    requires (t.phase == Finished || t.phase == Gone) && Valid(t, es)
    ensures Run(t, es).strategyRuns == t.strategyRuns
    decreases es
  {
    if es != [] {
      NoMoreRuns(Step(t, es[0]), es[1..]);
    }
  }

  /** No continuation runs the strategy again. */
  ghost predicate RanForTheLastTime(t: Task) {
    forall es :: Valid(t, es) ==> Run(t, es).strategyRuns == t.strategyRuns
  }

  /**
   After a failure of an unaborted task its strategy has run for the last time if and only if the
   failure is not tried again, or storing the retry threw: in particular after every failure of
   authentication, of the protocol or that cannot be recovered from.
   */
  lemma FailureIsLastIff(t: Task, taskId: string, kind: Kind, es: seq<Event>, failure: FailureClass, throws: bool)
    requires Reachable(t, taskId, kind, es) && !t.aborted && (t.phase == Executing || t.phase == CompletionThrew)
    ensures RanForTheLastTime(Step(t, Fail(failure, throws))) <==> !TriedAgain(kind, failure, t.attempt) || throws
    ensures failure in {Authentication, Protocol, NonRecoverable} ==> RanForTheLastTime(Step(t, Fail(failure, throws)))
  {
    var t' := Step(t, Fail(failure, throws));
    FailureOutcome(t, taskId, kind, es, failure, throws);
    if t'.phase == Finished {
      forall es' | Valid(t', es')
        ensures Run(t', es').strategyRuns == t'.strategyRuns
      {
        NoMoreRuns(t', es');
      }
    } else {
      var waiting := Step(t', Resume);
      RunOne(waiting, EnterLoop, []);
      RunOne(t', Resume, [EnterLoop] + []);
    }
  }

  // Results over whole runs

  /** The artifact of the last success that was not aborted, if there was one; `before` is an earlier one. */
  function LastResult(t: Task, es: seq<Event>, before: Option<string>): Option<string>
    requires Valid(t, es)
    decreases es
  {
    if es == [] then before
    else
      var result := if es[0].Succeed? && !t.aborted then Some(es[0].artifact) else before;
      LastResult(Step(t, es[0]), es[1..], result)
  }

  lemma {:induction false} ArtifactsComeFromSuccesses(t: Task, es: seq<Event>)
    requires Valid(t, es)
    ensures Run(t, es).row.artifact == LastResult(t, es, t.row.artifact)
    decreases es
  {
    if es != [] {
      ArtifactsComeFromSuccesses(Step(t, es[0]), es[1..]);
    }
  }

  /** In every run the stored artifact is that of the last unaborted success, and a COMPLETED row has one. */
  lemma ArtifactIsLastResult(taskId: string, kind: Kind, es: seq<Event>)
    requires Valid(Submitted(taskId, kind), es)
    ensures var t, result := Run(Submitted(taskId, kind), es), LastResult(Submitted(taskId, kind), es, None);
            t.row.artifact == result && (t.row.state == COMPLETED ==> result.Some?)
  {
    ArtifactsComeFromSuccesses(Submitted(taskId, kind), es);
    CompletedHasArtifact(Submitted(taskId, kind), es);
  }

  // Cancels

  /** A cancel aborts a coroutine that was launched and is not over, and remembers what it read. */
  lemma CancelBeginOutcome(t: Task)
    ensures var t' := Step(t, CancelBegin);
            && t' == t.(aborted := t'.aborted, cancels := t.cancels + [t.row.state])
            && (t'.aborted <==> t.aborted || t.phase !in {Created, Gone})
  {
  }

  /** It then stores CANCELLED unless it had read COMPLETED, FAILED or CANCELLED. */
  lemma CancelWriteOutcome(t: Task, index: nat)
    requires index < |t.cancels|
    ensures var t', read := Step(t, CancelWrite(index)), t.cancels[index];
            && t' == t.(row := t'.row, cancels := t.cancels[..index] + t.cancels[index + 1..])
            && t'.row == if read in {COMPLETED, FAILED, CANCELLED} then t.row
                         else t.row.(state := CANCELLED, resumeToken := None)
  {
  }

  /** After a wait the task is back before its next attempt; a finished coroutine gives up its controller. */
  lemma ResumeOutcome(t: Task)
    ensures t.phase.Waiting? ==> Step(t, Resume) == t.(phase := LoopHead, attempt := t.phase.nextAttempt)
    ensures t.phase == Finished ==> Step(t, Finalize) == t.(phase := Gone)
  {
  }
}
