/**
 A file task: its stored row, the writes the task service makes to it, and the executor's
 coroutine for it cut into the sections that run without interruption between two awaits.
 Cancellations are coroutines of their own, each with one section before and one after its await.
 */
module FileTask {
  import opened Collections
  import opened Text

  datatype State = PENDING | RUNNING | COMPLETED | FAILED | CANCELLED

  datatype Kind = UPLOAD | PACK_DOWNLOAD | REMOTE_DOWNLOAD | DIR_COPY | DIR_MOVE | COMPRESS | DECOMPRESS

  datatype FailureClass = NetworkTimeout | RemoteClosed | Authentication | Protocol | NonRecoverable

  datatype Row = Row(
    taskId: string,
    kind: Kind,
    state: State,
    attempt: nat,
    maxAttempts: nat,
    retryable: bool,
    resumeToken: Option<string>,
    failureClass: Option<FailureClass>,
    progress: int,
    artifact: Option<string>)

  const DEFAULT_ATTEMPTS := 1
  const DEFAULT_RETRYABLE_MAX_ATTEMPTS := 3

  predicate IsRetryableKind(kind: Kind) {
    kind in {UPLOAD, PACK_DOWNLOAD, REMOTE_DOWNLOAD, DIR_COPY, DIR_MOVE}
  }

  predicate IsRetryable(kind: Kind, failure: FailureClass) {
    IsRetryableKind(kind) && (failure == NetworkTimeout || failure == RemoteClosed)
  }

  predicate Terminal(s: State) {
    s == COMPLETED || s == FAILED || s == CANCELLED
  }

  function ResumeToken(taskId: string, attempt: nat): string {
    taskId + ":attempt:" + Digits(attempt)
  }

  // Writes of the task service

  function NewRow(taskId: string, kind: Kind): Row {
    Row(taskId, kind, PENDING, DEFAULT_ATTEMPTS,
        if IsRetryableKind(kind) then DEFAULT_RETRYABLE_MAX_ATTEMPTS else DEFAULT_ATTEMPTS,
        IsRetryableKind(kind), None, None, 0, None)
  }

  function MarkRunning(r: Row, attempt: nat, maxAttempts: nat, retryable: bool): Row {
    r.(state := RUNNING, attempt := attempt, maxAttempts := maxAttempts, retryable := retryable)
  }

  function MarkRetryScheduled(r: Row, attempt: nat, maxAttempts: nat, failure: FailureClass): Row {
    r.(state := RUNNING, attempt := attempt, maxAttempts := maxAttempts, retryable := true,
       resumeToken := Some(ResumeToken(r.taskId, attempt)), failureClass := Some(failure))
  }

  function MarkCompleted(r: Row, artifact: string, attempt: nat, maxAttempts: nat, retryable: bool): Row {
    r.(state := COMPLETED, attempt := attempt, maxAttempts := maxAttempts, retryable := retryable,
       resumeToken := None, failureClass := None, progress := 100, artifact := Some(artifact))
  }

  function MarkFailed(r: Row, attempt: nat, maxAttempts: nat, failure: FailureClass): Row {
    var retryable := IsRetryable(r.kind, failure);
    r.(state := FAILED, attempt := attempt, maxAttempts := maxAttempts, retryable := retryable,
       resumeToken := if retryable then Some(ResumeToken(r.taskId, attempt)) else None,
       failureClass := Some(failure))
  }

  /** The write for a kind without a strategy, which carries no failure metadata. */
  function MarkUnknownKind(r: Row): Row {
    r.(state := FAILED, resumeToken := None, failureClass := None)
  }

  function MarkCancelled(r: Row): Row {
    r.(state := CANCELLED, resumeToken := None)
  }

  function UpdateProgress(r: Row, fraction: real): Row {
    var clamped := if fraction < 0.0 then 0.0 else if fraction > 1.0 then 1.0 else fraction;
    r.(progress := (clamped * 100.0 + 0.5).Floor)
  }

  // The executor's coroutine

  /** Where the coroutine waits. `Created`: before `submit` has installed the abort controller. */
  datatype Phase =
    | Created
    | Starting
    | LoopHead
    | Executing
    | CompletionThrew
    | Waiting(nextAttempt: nat)
    | Finished
    | Gone

  /** One task: its row, the coroutine's locals and abort flag, and the states cancels have read. */
  datatype Task = Task(
    row: Row,
    phase: Phase,
    attempt: nat,
    maxAttempts: nat,
    retryable: bool,
    aborted: bool,
    strategyRuns: nat,
    cancels: seq<State>)

  function Submitted(taskId: string, kind: Kind): Task {
    Task(NewRow(taskId, kind), Created, 0, 0, false, false, 0, [])
  }

  /**
   `throws`: code after the row write (logging, event listeners, mapping) raises an exception.
   A strategy keeps its progress callback and may call it at any time after it was first run.
   */
  datatype Event =
    | Launch(hasStrategy: bool)
    | Start(throws: bool)
    | EnterLoop
    | Progress(fraction: real)
    | Succeed(artifact: string, throws: bool)
    | Fail(failure: FailureClass, throws: bool)
    | Resume
    | Finalize
    | CancelBegin
    | CancelWrite(index: nat)

  function Launched(t: Task, hasStrategy: bool): Task {
    if !hasStrategy then t.(row := MarkUnknownKind(t.row), phase := Gone)
    else t.(phase := Starting, attempt := t.row.attempt,
            maxAttempts := Max(t.row.attempt, t.row.maxAttempts), retryable := t.row.retryable)
  }

  function Started(t: Task, throws: bool): Task {
    t.(row := MarkRunning(t.row, t.attempt, t.maxAttempts, t.retryable),
       phase := if throws then Finished else LoopHead)
  }

  function LoopEntered(t: Task): Task {
    if t.aborted then t.(phase := Finished)
    else t.(phase := Executing, strategyRuns := t.strategyRuns + 1)
  }

  function Progressed(t: Task, fraction: real): Task {
    if t.aborted then t else t.(row := UpdateProgress(t.row, fraction))
  }

  function Succeeded(t: Task, artifact: string, throws: bool): Task {
    if t.aborted then t.(phase := Finished)
    else t.(row := MarkCompleted(t.row, artifact, t.attempt, t.maxAttempts, t.retryable),
            phase := if throws then CompletionThrew else Finished)
  }

  function RetryScheduled(t: Task, failure: FailureClass, throws: bool): Task {
    t.(row := MarkRetryScheduled(t.row, t.attempt + 1, t.maxAttempts, failure),
       phase := if throws then Finished else Waiting(t.attempt + 1))
  }

  function Failed(t: Task, failure: FailureClass, throws: bool): Task {
    if !t.aborted && IsRetryable(t.row.kind, failure) && t.attempt < t.maxAttempts then
      RetryScheduled(t, failure, throws)
    else if !t.aborted then t.(row := MarkFailed(t.row, t.attempt, t.maxAttempts, failure), phase := Finished)
    else t.(phase := Finished)
  }

  function Resumed(t: Task): Task
    requires t.phase.Waiting?
  {
    t.(phase := LoopHead, attempt := t.phase.nextAttempt)
  }

  predicate HasController(p: Phase) {
    p != Created && p != Gone
  }

  /** First section of a cancel: abort the controller if there is one, and read the row. */
  function CancelBegun(t: Task): Task {
    t.(aborted := t.aborted || HasController(t.phase), cancels := t.cancels + [t.row.state])
  }

  /** Second section: the decision uses the state read before the await. */
  function CancelWritten(t: Task, index: nat): Task
    requires index < |t.cancels|
  {
    var rest := t.cancels[..index] + t.cancels[index + 1..];
    if Terminal(t.cancels[index]) then t.(cancels := rest)
    else t.(row := MarkCancelled(t.row), cancels := rest)
  }

  predicate Enabled(t: Task, e: Event) {
    match e
    case Launch(_) => t.phase == Created
    case Start(_) => t.phase == Starting
    case EnterLoop => t.phase == LoopHead
    case Progress(_) => t.strategyRuns >= 1
    case Succeed(_, _) => t.phase == Executing
    case Fail(_, _) => t.phase == Executing || t.phase == CompletionThrew
    case Resume => t.phase.Waiting?
    case Finalize => t.phase == Finished
    case CancelBegin => true
    case CancelWrite(index) => index < |t.cancels|
  }

  function Step(t: Task, e: Event): Task
    requires Enabled(t, e)
  {
    match e
    case Launch(hasStrategy) => Launched(t, hasStrategy)
    case Start(throws) => Started(t, throws)
    case EnterLoop => LoopEntered(t)
    case Progress(fraction) => Progressed(t, fraction)
    case Succeed(artifact, throws) => Succeeded(t, artifact, throws)
    case Fail(failure, throws) => Failed(t, failure, throws)
    case Resume => Resumed(t)
    case Finalize => t.(phase := Gone)
    case CancelBegin => CancelBegun(t)
    case CancelWrite(index) => CancelWritten(t, index)
  }

  /** Every event is enabled when it happens. */
  predicate Valid(t: Task, es: seq<Event>)
    decreases es
  {
    es == [] || (Enabled(t, es[0]) && Valid(Step(t, es[0]), es[1..]))
  }

  function Run(t: Task, es: seq<Event>): Task
    requires Valid(t, es)
    decreases es
  {
    if es == [] then t else Run(Step(t, es[0]), es[1..])
  }
}
