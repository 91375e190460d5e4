/**
 The task service's table and the executor that drives it, with the executor's asynchronous
 functions cut at their awaits. Each method is one uninterrupted section; it performs the
 matching step of FileTask on its task and leaves every other task alone.
 */
module FileTaskExecutor {
  import opened Collections
  import opened FileTask

  class FileTaskService {
    var rows: map<string, Row>

    constructor ()
      ensures rows == map[]
    {
      rows := map[];
    }

    method CreateTask(taskId: string, kind: Kind)
      requires taskId !in rows
      modifies this
      ensures rows == old(rows)[taskId := NewRow(taskId, kind)]
    {
      var retryable := IsRetryableKind(kind);
      var maxAttempts := DEFAULT_ATTEMPTS;
      if retryable {
        maxAttempts := DEFAULT_RETRYABLE_MAX_ATTEMPTS;
      }
      rows := rows[taskId := Row(taskId, kind, PENDING, DEFAULT_ATTEMPTS, maxAttempts, retryable, None, None, 0, None)];
    }

    /** An update of a missing row changes nothing; the code that reads it back then fails. */
    method Update(taskId: string, row: Row) returns (found: bool)
      modifies this
      ensures found == (taskId in old(rows))
      ensures rows == if found then old(rows)[taskId := row] else old(rows)
    {
      found := taskId in rows;
      if found {
        rows := rows[taskId := row];
      }
    }

    /** What a cancel reads before its await; None when there is no such task. */
    method GetState(taskId: string) returns (read: Option<State>)
      ensures read == if taskId in rows then Some(rows[taskId].state) else None
    {
      read := if taskId in rows then Some(rows[taskId].state) else None;
    }

    /** None where the code throws: the task was not found, or its row is gone when it is written. */
    method Cancel(taskId: string, read: Option<State>) returns (result: Option<State>)
      modifies this
      ensures read == None ==> result == None
      ensures read.Some? && Terminal(read.value) ==> result == read
      ensures read.Some? && !Terminal(read.value) ==> result == if taskId in old(rows) then Some(CANCELLED) else None
      ensures rows == if taskId in old(rows) && read.Some? && !Terminal(read.value)
                      then old(rows)[taskId := MarkCancelled(old(rows)[taskId])] else old(rows)
    {
      if read == None {
        return None;
      }
      if read.value == COMPLETED || read.value == FAILED || read.value == CANCELLED {
        return read;
      }
      if taskId !in rows {
        return None;
      }
      var _ := Update(taskId, MarkCancelled(rows[taskId]));
      return Some(CANCELLED);
    }
  }

  /** The suspended coroutine of one task: where it waits and its local variables. */
  datatype Coroutine = Coroutine(phase: Phase, attempt: nat, maxAttempts: nat, retryable: bool, strategyRuns: nat)

  class FileTaskExecutor {
    const taskService: FileTaskService
    /** Tasks with an abort controller in the running table. */
    var running: set<string>
    /** Abort signals that have been raised; closures keep them after the table entry is gone. */
    var aborted: set<string>
    var coroutines: map<string, Coroutine>
    /** States read by cancels that have not written yet. */
    var cancels: map<string, seq<State>>

    constructor (service: FileTaskService)
      requires service.rows == map[]
      ensures taskService == service && Valid() && coroutines == map[]
    {
      taskService := service;
      running, aborted, coroutines, cancels := {}, {}, map[], map[];
    }

    ghost predicate Valid()
      reads this, taskService
    {
      && coroutines.Keys == cancels.Keys == taskService.rows.Keys
      && running <= coroutines.Keys && aborted <= coroutines.Keys
      && forall id :: id in coroutines ==>
           (id in running <==> HasController(coroutines[id].phase)) && taskService.rows[id].taskId == id
    }

    ghost function View(id: string): Task
      reads this, taskService
      requires Valid() && id in coroutines
    {
      var c := coroutines[id];
      Task(taskService.rows[id], c.phase, c.attempt, c.maxAttempts, c.retryable, id in aborted, c.strategyRuns,
           cancels[id])
    }

    twostate predicate OnlyTouches(id: string)
      requires old(Valid()) && Valid()
      reads this, taskService
    {
      && coroutines.Keys == old(coroutines.Keys)
      && forall other :: other in coroutines && other != id ==> View(other) == old(View(other))
    }

    method Submit(taskId: string, kind: Kind)
      requires Valid() && taskId !in coroutines
      modifies this, taskService
      ensures Valid() && coroutines.Keys == old(coroutines).Keys + {taskId}
      ensures View(taskId) == Submitted(taskId, kind)
      ensures forall other :: other in old(coroutines) ==> View(other) == old(View(other))
    {
      taskService.CreateTask(taskId, kind);
      coroutines := coroutines[taskId := Coroutine(Created, 0, 0, false, 0)];
      cancels := cancels[taskId := []];
    }

    /** Writes the row of one task, through the task service. */
    method Store(taskId: string, row: Row)
      requires Valid() && taskId in coroutines && row.taskId == taskId
      modifies taskService
      ensures Valid() && OnlyTouches(taskId) && View(taskId) == old(View(taskId)).(row := row)
    {
      var _ := taskService.Update(taskId, row);
    }

    /** Leaves the coroutine of one task waiting elsewhere. */
    method Suspend(taskId: string, c: Coroutine)
      requires Valid() && taskId in coroutines && HasController(c.phase) == HasController(coroutines[taskId].phase)
      modifies this`coroutines
      ensures Valid() && OnlyTouches(taskId)
      ensures View(taskId) == old(View(taskId)).(phase := c.phase, attempt := c.attempt,
        maxAttempts := c.maxAttempts, retryable := c.retryable, strategyRuns := c.strategyRuns)
    {
      coroutines := coroutines[taskId := c];
    }

    method MoveTo(taskId: string, phase: Phase)
      requires Valid() && taskId in coroutines && HasController(phase) == HasController(coroutines[taskId].phase)
      modifies this`coroutines
      ensures Valid() && OnlyTouches(taskId) && View(taskId) == old(View(taskId)).(phase := phase)
    {
      Suspend(taskId, coroutines[taskId].(phase := phase));
    }

    /** For a kind without strategy the controller is installed and removed within the section. */
    method ExecuteInBackground(taskId: string, hasStrategy: bool)
      requires Valid() && taskId in coroutines && Enabled(View(taskId), Launch(hasStrategy))
      modifies this, taskService
      ensures Valid() && OnlyTouches(taskId) && View(taskId) == Step(old(View(taskId)), Launch(hasStrategy))
    {
      var row, c := taskService.rows[taskId], coroutines[taskId];
      if !hasStrategy {
        Store(taskId, MarkUnknownKind(row));
        Suspend(taskId, c.(phase := Gone));
        return;
      }
      running := running + {taskId};
      coroutines := coroutines[taskId :=
        Coroutine(Starting, row.attempt, Max(row.attempt, row.maxAttempts), row.retryable, c.strategyRuns)];
    }

    method Start(taskId: string, throws: bool)
      requires Valid() && taskId in coroutines && Enabled(View(taskId), FileTask.Start(throws))
      modifies this, taskService
      ensures Valid() && OnlyTouches(taskId) && View(taskId) == Step(old(View(taskId)), FileTask.Start(throws))
    {
      var c := coroutines[taskId];
      Store(taskId, MarkRunning(taskService.rows[taskId], c.attempt, c.maxAttempts, c.retryable));
      MoveTo(taskId, if throws then Finished else LoopHead);
    }

    method EnterLoop(taskId: string)
      requires Valid() && taskId in coroutines && Enabled(View(taskId), FileTask.EnterLoop)
      modifies this
      ensures Valid() && OnlyTouches(taskId) && View(taskId) == Step(old(View(taskId)), FileTask.EnterLoop)
    {
      var c := coroutines[taskId];
      if taskId in aborted {
        MoveTo(taskId, Finished);
      } else {
        Suspend(taskId, c.(phase := Executing, strategyRuns := c.strategyRuns + 1));
      }
    }

    method ReportProgress(taskId: string, fraction: real)
      requires Valid() && taskId in coroutines && Enabled(View(taskId), Progress(fraction))
      modifies taskService
      ensures Valid() && OnlyTouches(taskId) && View(taskId) == Step(old(View(taskId)), Progress(fraction))
    {
      if taskId !in aborted {
        Store(taskId, UpdateProgress(taskService.rows[taskId], fraction));
      }
    }

    method StrategySucceeded(taskId: string, artifact: string, throws: bool)
      requires Valid() && taskId in coroutines && Enabled(View(taskId), Succeed(artifact, throws))
      modifies this, taskService
      ensures Valid() && OnlyTouches(taskId) && View(taskId) == Step(old(View(taskId)), Succeed(artifact, throws))
    {
      var c := coroutines[taskId];
      if taskId !in aborted {
        Store(taskId, MarkCompleted(taskService.rows[taskId], artifact, c.attempt, c.maxAttempts, c.retryable));
        if throws {
          MoveTo(taskId, CompletionThrew);
          return;
        }
      }
      MoveTo(taskId, Finished);
    }

    method ScheduleRetry(taskId: string, failure: FailureClass, throws: bool)
      requires Valid() && taskId in coroutines && coroutines[taskId].phase in {Executing, CompletionThrew}
      modifies this, taskService
      ensures Valid() && OnlyTouches(taskId) && View(taskId) == RetryScheduled(old(View(taskId)), failure, throws)
    {
      ghost var t := View(taskId);
      var row, c := taskService.rows[taskId], coroutines[taskId];
      var nextAttempt := c.attempt + 1;
      row := MarkRetryScheduled(row, nextAttempt, c.maxAttempts, failure);
      assert RetryScheduled(t, failure, throws) == t.(row := row, phase := if throws then Finished else Waiting(nextAttempt));
      Store(taskId, row);
      MoveTo(taskId, if throws then Finished else Waiting(nextAttempt));
    }

    method GiveUp(taskId: string, failure: FailureClass)
      requires Valid() && taskId in coroutines && coroutines[taskId].phase in {Executing, CompletionThrew}
      modifies this, taskService
      ensures Valid() && OnlyTouches(taskId)
      ensures var t := old(View(taskId));
              View(taskId) == t.(phase := Finished,
                row := if t.aborted then t.row else MarkFailed(t.row, t.attempt, t.maxAttempts, failure))
    {
      var c := coroutines[taskId];
      if taskId !in aborted {
        Store(taskId, MarkFailed(taskService.rows[taskId], c.attempt, c.maxAttempts, failure));
      }
      MoveTo(taskId, Finished);
    }

    method StrategyFailed(taskId: string, failure: FailureClass, throws: bool)
      requires Valid() && taskId in coroutines && Enabled(View(taskId), Fail(failure, throws))
      modifies this, taskService
      ensures Valid() && OnlyTouches(taskId) && View(taskId) == Failed(old(View(taskId)), failure, throws)
    {
      var c := coroutines[taskId];
      var retryable := IsRetryable(taskService.rows[taskId].kind, failure);
      if taskId !in aborted && retryable && c.attempt < c.maxAttempts {
        ScheduleRetry(taskId, failure, throws);
      } else {
        GiveUp(taskId, failure);
      }
    }

    method Resume(taskId: string)
      requires Valid() && taskId in coroutines && Enabled(View(taskId), FileTask.Resume)
      modifies this
      ensures Valid() && OnlyTouches(taskId) && View(taskId) == Step(old(View(taskId)), FileTask.Resume)
    {
      var c := coroutines[taskId];
      Suspend(taskId, c.(phase := LoopHead, attempt := c.phase.nextAttempt));
    }

    method Finalize(taskId: string)
      requires Valid() && taskId in coroutines && Enabled(View(taskId), FileTask.Finalize)
      modifies this
      ensures Valid() && OnlyTouches(taskId) && View(taskId) == Step(old(View(taskId)), FileTask.Finalize)
    {
      running := running - {taskId};
      coroutines := coroutines[taskId := coroutines[taskId].(phase := Gone)];
    }

    /** None where the code throws because there is no such task; then nothing has changed. */
    method BeginCancel(taskId: string) returns (read: Option<State>)
      requires Valid()
      modifies this
      ensures Valid() && (read == None <==> taskId !in old(coroutines))
      ensures taskId !in old(coroutines) ==> unchanged(this)
      ensures taskId in old(coroutines) ==>
                && OnlyTouches(taskId) && View(taskId) == Step(old(View(taskId)), CancelBegin)
                && read == Some(old(View(taskId)).row.state)
    {
      if taskId in running {
        aborted := aborted + {taskId};
      }
      read := taskService.GetState(taskId);
      if read.Some? {
        cancels := cancels[taskId := cancels[taskId] + [read.value]];
      }
    }

    method WriteCancel(taskId: string, index: nat)
      requires Valid() && taskId in coroutines && Enabled(View(taskId), CancelWrite(index))
      modifies this, taskService
      ensures Valid() && OnlyTouches(taskId) && View(taskId) == Step(old(View(taskId)), CancelWrite(index))
    {
      var pending := cancels[taskId];
      cancels := cancels[taskId := pending[..index] + pending[index + 1..]];
      var _ := taskService.Cancel(taskId, Some(pending[index]));
    }
  }
}
