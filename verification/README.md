# Verified model of the agent's stateful cores

This project models, in Dafny, the parts of the Minecraft server agent that keep state or that
compute a simple thing in a fast way, and proves what they promise over whole runs. Classes keep
the fields of the services and update them in place; each of their methods is proved to take the
state to the value that a function of the old state gives, and the properties are proved about
that function, over every sequence of events.

Check it with `dafny verify dfyconfig.toml`.

| files | what is modelled |
|---|---|
| `BotLifecycle`, `BotConnector`, `BotLifecycleRuns`, `BotLifecycleTimers`, `BotLifecycleOutcomes` | One bot's connection: socket handlers, commands and timer callbacks, each one atomic step. Deaths, the rapid-death window, suspension, restoring debug mode, backoff, and when a disconnect is final. |
| `FileTask`, `FileTaskExecutor`, `FileTaskRuns`, `FileTaskOutcomes` | A file task and its row: the executor's coroutine cut at its awaits, interleaved with any number of cancels. |
| `ValidationSaga`, `ValidationOrchestrator`, `ValidationSagaProofs`, `ValidationReferences`, `ValidationOutcomes`, `ValidationInterleaving`, `ValidationInterleavingSafety`, `ValidationSerial` | Starting a local validation run: a sequence of calls with compensation, where every call may fail before or after taking effect, and starts of different runs interleave. |
| `BotNames`, `BotFleet`, `BotFleetFacts`, `BotOrchestrator` | Bot names, chunks, and which bot runs on which worker process, over the maps of three services. |
| `ChatDedup` | Deduplication of chat seen by many bots. |
| `RateLimiter` | The sliding-window request limiter of the log endpoints. |
| `LogSearch`, `LogSearchFacts`, `LogAggregate`, `LogAggregateFacts` | Keyword search over one server's files, and the batched, early-exiting, deduplicating search over many servers. |
| `LogTail` | The last lines of a file from one chunk at its end. |
| `HelperQueue`, `JavaHelper` | Requests to the Java helper, whose answers carry no request id. |
| `JmxBuckets`, `JmxBucketFacts` | Aggregation of JVM samples into time buckets. |
| `Manifest` | The jar manifest parser and folding of long lines, as in section "Manifest Specification" of the JAR File Specification. |
| `FileVersions`, `FileVersionFacts`, `FileVersionService` | Saved file versions and their pruning. |
| `Collections`, `FirstOccurrence`, `Text` | Sequences, first occurrences, decimal numerals and lines. |

Some promises hold only under a condition, and the project states it:

- A disconnect is final exactly when no reconnect was scheduled outside the tracked timer. The code
  overwrites the tracked timer without clearing it, and a state with such a stray reconnect is
  reachable (`DisconnectIsFinalIff`, `StrayReconnectIsReachable`).
- A suspended dead bot stays dead until a command or its recovery exactly when no other reconnecting
  callback is scheduled and no listener awaits a first spawn (`SuspensionHoldsIff`).
- Terminal task states need two things. Cancels must begin after the section that writes RUNNING
  (`CancelIsSafeIff`). And a completion is safe exactly when the task was aborted before it or nothing
  throws after the COMPLETED write (`CompletionIsFinalIff`, `ThrowAfterCompletionBreaksIt`).
- The progress of a COMPLETED row is final exactly when the task is aborted, and its artifact unless
  the completion threw and may be retried (`CompletedRowIsFinalIff`).
- A deleted config stays referenced by its run for exactly the fault patterns of `StartFaults`: the
  delete worked and both writes after it were lost, or it threw after deleting (`StartDanglesIff`,
  `InterleavedDanglesIff`, `ThrowingDeleteLeavesReference`).
- Dropping repeated search rows compares a joined text. Two files of one server can share a key exactly
  when one name is the other, a bar, a line number and then nothing or another bar (`FilesCollideIff`,
  `BarsCanHideRows`). Without such names nothing is ever dropped, and with them some search drops a row
  (`KeysTellRowsIff`, `NothingIsDropped`).
- The batch size of the aggregate search matters only when a server's search rejects, and then exactly
  when the total is reached within that server's batch (`BatchingMattersIff`).
- An answer of the Java helper reaches its own request exactly when that request is still pending
  (`AnswerReachesItsRequestIff`, `LateAnswerIsMisdelivered`).
- Folding a manifest header keeps its meaning exactly under `HeaderFoldsWell`; a header without a name
  loses its continuation lines (`HeaderFoldIff`, `NamelessHeaderLosesFold`).
- A limit of zero on the JVM history returns every bucket (`PointsReturned`), and a request for zero
  lines of a compressed file returns all of it (`TailLogFile`).

The clock is an input that never runs backwards. Identities of sockets, strategy objects and timers
are numbers that are never reused.

## Model

| member | source | states |
|---|---|---|
| BotConnector.BotConnector.Connect | packages/bot-worker/src/lifecycle/bot-connector.ts:51-120 | Reconnecting under a name stops and detaches the old client, clears the tracked timer and installs a new client that keeps the death count and gets a fresh strategy; no other bot changes. |
| BotConnector.BotConnector.Disconnect | packages/bot-worker/src/lifecycle/bot-connector.ts:122-141 | Forgets timer, strategy, deaths, suspension, options and debug memory, detaches and stops; no other bot changes. |
| BotConnector.BotConnector.DisconnectAll | packages/bot-worker/src/lifecycle/bot-connector.ts:143-147 | Exactly the registered bots are disconnected, whatever the order. |
| BotConnector.BotConnector.ForceRespawn | packages/bot-worker/src/lifecycle/bot-connector.ts:150-174 | Ends the suspension; revives in the game if the socket is writable and the respawn does not throw, otherwise reconnects if options are known. |
| BotConnector.BotConnector.OnSpawn | packages/bot-worker/src/lifecycle/bot-connector.ts:177-193 | The first spawn of a client restores debug mode if it was interrupted and resets the strategy. |
| BotConnector.BotConnector.Die | packages/bot-worker/src/lifecycle/bot-connector.ts:195-210 | The body shared by the three handlers that notice a death: remember debug mode, DEAD, count, report, recover. |
| BotConnector.BotConnector.OnHealth | packages/bot-worker/src/lifecycle/bot-connector.ts:195-210 | Health zero is a death unless the bot is already dead or stopped. |
| BotConnector.BotConnector.AutoRespawnDue | packages/bot-worker/src/lifecycle/bot-connector.ts:444-467 | The delayed respawn does nothing for a suspended or living bot, revives over a writable socket, and otherwise retries the connection. |
| BotConnector.BotConnector.DeathRecoveryDue | packages/bot-worker/src/lifecycle/bot-connector.ts:429-438 | The recovery after rapid deaths forgets them, ends the suspension and reconnects unless stopped. |
| BotConnector.BotConnector.ExhaustionDue | packages/bot-worker/src/lifecycle/bot-connector.ts:386-394 | The recovery after exhausted retries resets the strategy it was scheduled for and reconnects unless stopped. |
| BotConnector.BotConnector.OnKicked | packages/bot-worker/src/lifecycle/bot-connector.ts:212-228 | A kick disconnects and retries unless the bot is dead or stopped. |
| BotConnector.BotConnector.EndDue | packages/bot-worker/src/lifecycle/bot-connector.ts:230-270 | The delayed end of a connection is the model's step, whose outcome EndOutcome states. |
| BotConnector.BotConnector.OnError | packages/bot-worker/src/lifecycle/bot-connector.ts:272-307 | An error is reported and disconnects a bot that is not stopped, disconnected or dead. |
| BotConnector.BotConnector.OnDeath | packages/bot-worker/src/lifecycle/bot-connector.ts:323-338 | A death event counts only if the bot was not already dead. |
| BotConnector.BotConnector.OnRespawn | packages/bot-worker/src/lifecycle/bot-connector.ts:340-365 | A server respawn revives a dead bot, into debug mode if that was interrupted, but cuts a suspended bot off and leaves it dead. |
| BotConnector.BotConnector.AttemptReconnect | packages/bot-worker/src/lifecycle/bot-connector.ts:378-409 | Within the limit schedules a reconnect and overwrites the tracked timer; beyond it clears the timer and schedules the long recovery. |
| BotConnector.BotConnector.HandleDeathRecovery | packages/bot-worker/src/lifecycle/bot-connector.ts:411-468 | Prunes the death times, suspends and schedules the recovery on the fourth, otherwise schedules an auto-respawn. |
| BotConnector.BotConnector.Handle | packages/bot-worker/src/lifecycle/bot-connector.ts:176-373 | Whatever happens to one bot, the object makes the model's step for it and leaves every other bot as it was. |
| BotLifecycleRuns.DeathAccountingIsExact | packages/bot-worker/src/lifecycle/bot-connector.ts:96-110 | In every run the death count, the number of entries into DEAD and the number of DIED reports are equal, across reconnects and whoever noticed a death first. |
| BotLifecycleRuns.RapidDeathDetection | packages/bot-worker/src/lifecycle/bot-connector.ts:411-441 | In every run the pruned list is the whole death history since the last reset cut to the 60 s before the latest death, and the bot is suspended exactly when four of those deaths ever fell into 60 s. |
| BotLifecycleRuns.FullListMeansSuspended | packages/bot-worker/src/lifecycle/bot-connector.ts:420-441 | A list of four or more deaths implies suspension. |
| BotLifecycleRuns.SuspendedBotStaysDead | packages/bot-worker/src/lifecycle/bot-connector.ts:340-354 | Socket events other than a spawn, auto-respawn and delayed-end callbacks leave a suspended dead bot dead, suspended and uncounted, and schedule nothing that could reconnect it. |
| BotLifecycleTimers.SuspensionHoldsIff | packages/bot-worker/src/lifecycle/bot-connector.ts:340-468 | In every run the event loop allows, up to a command or the recovery, a suspended dead bot stays dead if and only if no reconnect and no exhaustion recovery is scheduled and no listener awaits a first spawn. |
| BotLifecycleRuns.DebuggingIsRestored | packages/bot-worker/src/lifecycle/bot-connector.ts:177-193 | A bot that fell out of DEBUGGING is DEBUGGING again, never SPAWNED, at the first later step that makes it live, if no command intervenes. |
| BotLifecycleRuns.StepEffect | packages/bot-worker/src/lifecycle/bot-connector.ts:195-365 | What any single step does to the death records and to the debug memory. |
| BotLifecycleOutcomes.EndOutcome | packages/bot-worker/src/lifecycle/bot-connector.ts:230-270 | For every bot in CONNECTING, SPAWNED or DEBUGGING the delayed end is a death if and only if the last height was below -64 or there are recent deaths; otherwise the bot is DISCONNECTED, that is reported, and exactly one retry is scheduled with the next delay, or the long recovery. In any other phase nothing changes. |
| BotLifecycleOutcomes.HealthOutcome | packages/bot-worker/src/lifecycle/bot-connector.ts:195-210 | Zero health is a death exactly of a known bot that is neither DEAD nor STOPPED, with the count, report, window and callback of a death; otherwise nothing changes. |
| BotLifecycleOutcomes.DeathOutcome | packages/bot-worker/src/lifecycle/bot-connector.ts:323-338 | A death event is a death exactly of a known bot that is not DEAD. |
| BotLifecycleOutcomes.KickOutcome | packages/bot-worker/src/lifecycle/bot-connector.ts:212-228 | A kick of a DEAD or STOPPED bot is only reported; of any other it is a loss that is retried. |
| BotLifecycleOutcomes.ErrorOutcome | packages/bot-worker/src/lifecycle/bot-connector.ts:272-307 | An error is always reported, and a loss that is retried exactly in CONNECTING, SPAWNED and DEBUGGING. |
| BotLifecycleOutcomes.RespawnOutcome | packages/bot-worker/src/lifecycle/bot-connector.ts:340-365 | A server respawn revives a DEAD bot that is not suspended, into debug mode if it fell out of it, and takes the listeners of a suspended one. |
| BotLifecycleOutcomes.SpawnOutcome | packages/bot-worker/src/lifecycle/bot-connector.ts:177-193 | A first spawn makes the bot live in the mode it was in, starts its strategy over and reports both. |
| BotLifecycleOutcomes.ForceRespawnOutcome | packages/bot-worker/src/lifecycle/bot-connector.ts:149-174 | A forced respawn always ends the suspension; it is made in the game exactly if the socket is writable and the call does not throw, else by a new connection if the options are known. |
| BotLifecycleOutcomes.AutoRespawnOutcome | packages/bot-worker/src/lifecycle/bot-connector.ts:444-467 | A delayed respawn acts exactly on a DEAD bot that is not suspended; it asks in the game or retries the connection, and never changes the phase. |
| BotLifecycleOutcomes.ExhaustionOutcome | packages/bot-worker/src/lifecycle/bot-connector.ts:386-394 | The recovery after exhausted retries connects every known bot that is not STOPPED and starts over only the strategy it was scheduled for. |
| BotLifecycleOutcomes.DeathRecoveryOutcome | packages/bot-worker/src/lifecycle/bot-connector.ts:429-438 | The recovery after rapid deaths forgets them, ends the suspension and connects every known bot that is not STOPPED. |
| BotLifecycleOutcomes.ConnectCallOutcome | packages/bot-worker/src/lifecycle/bot-connector.ts:51-120 | A connect leaves one new client with a fresh strategy and the old death count, or, if creating it throws, the old one stopped. |
| BotLifecycleOutcomes.DelayIs | packages/bot-worker/src/lifecycle/reconnect-strategy.ts:1-31 | The waits after one to five failures are 2, 4, 8, 16 and 30 seconds, and 30 from then on. |
| BotLifecycleOutcomes.DeathsAreThoseNoticed | packages/bot-worker/src/lifecycle/bot-connector.ts:195-338 | In every run the deaths counted and reported are as many as events that tell of one: zero health, a death event, or an end below the world or after recent deaths. |
| BotLifecycleOutcomes.LostBotIsRetried | packages/bot-worker/src/lifecycle/bot-connector.ts:212-409 | In every run the event loop allows, a DISCONNECTED bot with a strategy has a callback scheduled that will connect it. |
| BotLifecycleTimers.ReachableStatesSatisfyInv | packages/bot-worker/src/lifecycle/reconnect-strategy.ts:1-31 | In every run each scheduled reconnect waits between 2000 and 32999 ms, no strategy records more failures than its limit, and only the newest socket has listeners. |
| BotLifecycleTimers.NextDelayInRange | packages/bot-worker/src/lifecycle/reconnect-strategy.ts:1-31 | After at least one failure the backoff lies between two base delays and the cap. |
| BotLifecycleTimers.DisconnectIsFinalIff | packages/bot-worker/src/lifecycle/bot-connector.ts:404-408 | After a disconnect the bot stays stopped until the next command if and only if no reconnect callback was scheduled outside the tracked one. |
| BotLifecycleTimers.StrayReconnectIsReachable | packages/bot-worker/src/lifecycle/bot-connector.ts:399-408 | A run that really leaves such a callback behind. |
| FileTaskExecutor.FileTaskService.CreateTask | packages/server/src/file-manager/file-task.service.ts:27-80 | A new row is PENDING at attempt 1, with three attempts for retryable kinds and one otherwise. |
| FileTaskExecutor.FileTaskService.Cancel | packages/server/src/file-manager/file-task.service.ts:302-352 | The decision to cancel uses the state read before the await; an unknown id, or a row that is gone, is an error that changes nothing. |
| FileTaskExecutor.FileTaskExecutor.Submit | packages/server/src/file-manager/file-task.executor.ts:127-131 | Submitting adds one pending task and changes no other. |
| FileTaskExecutor.FileTaskExecutor.ExecuteInBackground | packages/server/src/file-manager/file-task.executor.ts:141-161 | Installs the abort controller, or fails a kind without strategy at once. |
| FileTaskExecutor.FileTaskExecutor.Start | packages/server/src/file-manager/file-task.executor.ts:170-183 | The section that writes RUNNING. |
| FileTaskExecutor.FileTaskExecutor.EnterLoop | packages/server/src/file-manager/file-task.executor.ts:185-187 | The strategy is run once more unless the task was aborted. |
| FileTaskExecutor.FileTaskExecutor.ReportProgress | packages/server/src/file-manager/file-task.executor.ts:152-156 | Whenever the strategy has begun, also after it has settled, progress is stored as a percentage between 0 and 100 unless the task was aborted. |
| FileTaskExecutor.FileTaskExecutor.StrategySucceeded | packages/server/src/file-manager/file-task.executor.ts:186-195 | The abort check and the COMPLETED write are one section; an exception after the write ends in the catch block. |
| FileTaskExecutor.FileTaskExecutor.StrategyFailed | packages/server/src/file-manager/file-task.executor.ts:196-217 | The catch block is the model's section, whose outcome FailureOutcome states. |
| FileTaskExecutor.FileTaskExecutor.BeginCancel | packages/server/src/file-manager/file-task.executor.ts:133-139 | A cancel aborts the controller, if there is one, before it reads the row; for an unknown id it reads nothing and changes nothing. |
| FileTaskExecutor.FileTaskExecutor.WriteCancel | packages/server/src/file-manager/file-task.service.ts:339-352 | Its second section writes CANCELLED unless the state it read was terminal. |
| FileTaskRuns.TerminalStatesAreFinal | packages/server/src/file-manager/file-task.executor.ts:133-219 | Under every interleaving of sections, progress and cancels that begin after the start section, a COMPLETED, FAILED or CANCELLED row keeps its state if and only if the catch block never handles an exception thrown after the COMPLETED write; if nothing throws there, always. |
| FileTaskRuns.CompletionAbsorbsIff | packages/server/src/file-manager/file-task.executor.ts:186-217 | For every task in its strategy: all continuations of its success keep terminal states if and only if it was aborted or nothing throws after the COMPLETED write. |
| FileTaskRuns.CompletionIsFinalIff | packages/server/src/file-manager/file-task.executor.ts:133-219 | The same at every point of every run from submission at which the strategy succeeds. |
| FileTaskRuns.CompletedRowIsFinalIff | packages/server/src/file-manager/file-task.executor.ts:152-217 | In every run, whenever the row is COMPLETED: its progress is final if and only if the task is aborted, its artifact if and only if no thrown completion may be retried. |
| FileTaskRuns.CancelIsSafeIff | packages/server/src/file-manager/file-task.executor.ts:133-183 | A first cancel keeps terminal states final in every continuation, even one whose completion throws, if and only if the start section is over. |
| FileTaskRuns.ThrowAfterCompletionBreaksIt | packages/server/src/file-manager/file-task.executor.ts:186-217 | A run in which COMPLETED becomes FAILED because code after the COMPLETED write throws. |
| FileTaskRuns.TaskRunsAreConsistent | packages/server/src/file-manager/file-task.executor.ts:196-268 | In every run: at most maxAttempts strategy runs, one for other kinds; FAILED only for a failure that may not be retried or with attempts used up; a resume token names the stored attempt and is absent when completed or cancelled. |
| FileTaskRuns.TokenNamesAttempt | packages/server/src/file-manager/file-task.executor.ts:299-301 | The resume token determines its attempt. |
| FileTaskRuns.TaskTerminates | packages/server/src/file-manager/file-task.executor.ts:163-219 | From submission on there are at most sixteen sections, eight for a kind that is not retryable, whatever cancels and progress interleave. |
| FileTaskRuns.ExecutorTerminates | packages/server/src/file-manager/file-task.executor.ts:185-218 | From any state the sections still to come are bounded by the attempts that are left. |
| FileTaskOutcomes.FailureOutcome | packages/server/src/file-manager/file-task.executor.ts:196-268 | At every point of every run: a failure of an unaborted task is tried again, as the next attempt, if and only if the kind is UPLOAD, PACK_DOWNLOAD, REMOTE_DOWNLOAD, DIR_COPY or DIR_MOVE, the class is NetworkTimeout or RemoteClosed and fewer than three attempts were made; otherwise the row is FAILED with that class. An aborted task stores nothing. |
| FileTaskOutcomes.FailureIsLastIff | packages/server/src/file-manager/file-task.executor.ts:185-217 | No continuation runs the strategy again if and only if the failure is not tried again or storing the retry threw; so after every Authentication, Protocol or NonRecoverable failure. |
| FileTaskOutcomes.SuccessOutcome | packages/server/src/file-manager/file-task.executor.ts:186-195 | A success of an unaborted task leaves a COMPLETED row with its artifact, progress 100, the current attempt and no failure or token; an aborted one changes no row. |
| FileTaskOutcomes.ArtifactIsLastResult | packages/server/src/file-manager/file-task.executor.ts:186-195 | In every run the stored artifact is that of the last unaborted success, and a COMPLETED row has one. |
| FileTaskOutcomes.NewTask | packages/server/src/file-manager/file-task.service.ts:27-80 | A new task is PENDING at attempt 1 of 3, or of 1 for kinds that are not tried again. |
| FileTaskOutcomes.StartOutcome | packages/server/src/file-manager/file-task.executor.ts:170-183 | The start section stores RUNNING at attempt 1 whatever the row was. |
| FileTaskOutcomes.LoopOutcome | packages/server/src/file-manager/file-task.executor.ts:185-187 | The strategy is run once more if and only if the task was not aborted. |
| FileTaskOutcomes.ResumeOutcome | packages/server/src/file-manager/file-task.executor.ts:157-217 | After the wait the next attempt begins, and a finished coroutine gives up its controller. |
| FileTaskOutcomes.ProgressOutcome | packages/server/src/file-manager/file-task.executor.ts:152-156 | Progress is the percentage rounded half up, 0 below and 100 above the range, and not stored when aborted. |
| FileTaskOutcomes.CancelBeginOutcome | packages/server/src/file-manager/file-task.executor.ts:133-139 | A cancel aborts exactly a task that was launched and is not over, and changes no row. |
| FileTaskOutcomes.CancelWriteOutcome | packages/server/src/file-manager/file-task.service.ts:302-352 | It stores CANCELLED if and only if the state it had read was none of COMPLETED, FAILED and CANCELLED. |
| ValidationOrchestrator.Orchestrator.StartRun | packages/server/src/local-validation/local-validation-orchestrator.service.ts:29-96 | The start as written, call by call, ends in the world and with the outcome the saga gives. |
| ValidationOrchestrator.Orchestrator.CompensatePreStartBookkeepingFailure | packages/server/src/local-validation/local-validation-orchestrator.service.ts:278-337 | Compensation before the server starts: delete the config, then back to CREATED, or keep the failure. |
| ValidationOrchestrator.Orchestrator.CompensateReadyPersistenceFailure | packages/server/src/local-validation/local-validation-orchestrator.service.ts:339-423 | Compensation after the server started: the config is deleted only if the stop succeeded. |
| ValidationOrchestrator.Orchestrator.UpdateRunStatusAndEmit | packages/server/src/local-validation/local-validation.store.ts:188-216 | A status write is one call of the saga, of which WriteAt states what it stores. |
| ValidationSagaProofs.StartIsSafe | packages/server/src/local-validation/local-validation-orchestrator.service.ts:29-96 | Under every fault pattern, after every single call: at most one live config a run, CREATED implies no live config and no running server, no running server without config; the error thrown is that of the first failed call; a config whose delete reported success stays referenced only if every later write failed; other runs are untouched. |
| ValidationOutcomes.WriteAt | packages/server/src/local-validation/local-validation.store.ts:188-216 | A write that takes effect replaces status, config and failure code as far as they are given and keeps the rest; one that fails before changes nothing. |
| ValidationOutcomes.StartLeaves | packages/server/src/local-validation/local-validation-orchestrator.service.ts:29-423 | For every world, run and fault pattern, in closed form: the stored row, whether the config is live and its server running, the number of calls and the error, by the first call that failed and the later ones that took effect. |
| ValidationOutcomes.StartStores | packages/server/src/local-validation/local-validation-orchestrator.service.ts:29-423 | Spelled out: the failed workspace, config and server start store their status, code and config; failed bookkeeping keeps its failure with the config that a failed stop or delete leaves, without one when only the way back failed, and is CREATED again when all worked. |
| ValidationReferences.PreStartDanglesIff | packages/server/src/local-validation/local-validation-orchestrator.service.ts:278-337 | For all faults of the compensation before the server starts: the run is left referring to the deleted config if and only if the delete worked and both later writes were lost on a run that names it, or the delete threw after deleting and an earlier or later write names it. |
| ValidationReferences.ReadyDanglesIff | packages/server/src/local-validation/local-validation-orchestrator.service.ts:339-423 | The same for the compensation after the server started, which deletes only after a stop that reported success. |
| ValidationReferences.StartDanglesIff | packages/server/src/local-validation/local-validation-orchestrator.service.ts:29-423 | The same for a whole start, for every world, run and fault pattern: the start is of a CREATED run and attaching, STARTING or READY is its first call to fail, with such a compensation. |
| ValidationReferences.ThrowingDeleteLeavesReference | packages/server/src/local-validation/local-validation-orchestrator.service.ts:29-337 | A start of a drafted run whose attach fails and whose delete throws after deleting leaves the run pointing at the deleted config. |
| ValidationSagaProofs.RunsAreAlwaysSafe | packages/server/src/local-validation/local-validation-orchestrator.service.ts:29-423 | The same safety for any number of starts in sequence, new drafts and reports from the empty store. |
| ValidationInterleavingSafety.InterleavedStartsAreSafe | packages/server/src/local-validation/local-validation-orchestrator.service.ts:29-423 | The same safety after every single call of any number of starts whose calls interleave in any way, with drafts and reported status changes in between; and each ended start throws the error of the first of its own calls that failed. |
| ValidationSerial.InterleavedStartIsAlone | packages/server/src/local-validation/local-validation-orchestrator.service.ts:29-423 | A start among any others leaves its run, configs and servers as the same start alone would, given the faults its own calls meet and its config number, and makes the same calls with the same results. |
| ValidationSerial.InterleavedStartLeaves | packages/server/src/local-validation/local-validation-orchestrator.service.ts:29-423 | The closed form of StartLeaves for the row, config and server of a start among any others, by the faults its own calls meet. |
| ValidationSerial.InterleavedDeletesAreForgotten | packages/server/src/local-validation/local-validation-orchestrator.service.ts:230-423 | For interleaved starts too, a config whose delete reported success stays referenced only if every later write of that start failed. |
| ValidationSerial.InterleavedDanglesIff | packages/server/src/local-validation/local-validation-orchestrator.service.ts:29-423 | The exact condition of StartDanglesIff for a start whose calls interleave with any others, by the faults that its own calls meet. |
| ValidationInterleavingSafety.StartsEnd | packages/server/src/local-validation/local-validation-orchestrator.service.ts:29-96 | However starts interleave, one start makes at most fourteen calls. |
| ValidationInterleaving.AloneIsTheSaga | packages/server/src/local-validation/local-validation-orchestrator.service.ts:36-92 | The start cut at its calls, run alone to its end, leaves the world that the sequence with its nested compensation describes. |
| ValidationSagaProofs.SecondStartIsRefused | packages/server/src/local-validation/local-validation-orchestrator.service.ts:29-40 | While a run is being started a second start changes nothing. |
| ValidationSagaProofs.FailedBookkeepingIsUndone | packages/server/src/local-validation/local-validation-orchestrator.service.ts:240-423 | If attaching, marking STARTING or marking READY fails and the compensation works, stored runs, configs and servers are exactly as before. |
| BotNames.BuildBotNames | packages/server/src/bot/bot-orchestrator.service.ts:407-418 | The names of a batch are pairwise distinct. |
| BotNames.IndexIsRecoverable | packages/server/src/bot/bot-orchestrator.service.ts:411-415 | The index can be read back from the text after the last dash, for every prefix. |
| BotNames.PrefixIsKept | packages/server/src/bot/bot-orchestrator.service.ts:407-410 | The prefix is what was asked for without surrounding white space, or "bot" when that is empty. |
| BotNames.NameShowsPrefix | packages/server/src/bot/bot-orchestrator.service.ts:411-415 | A name is the whole prefix, a dash and the number when they fit into sixteen characters, else the longest part of the prefix that does. |
| BotNames.NameFitsIff | packages/server/src/bot/bot-orchestrator.service.ts:411-415 | A name has at most sixteen characters exactly up to index 10^14 - 1, and starts with the prefix. |
| BotNames.Chunk | packages/server/src/bot/bot-orchestrator.service.ts:399-405 | Non-empty chunks of the given size, only the last shorter, that concatenate back to the list. |
| BotOrchestrator.BotOrchestrator.CreateBotBatch | packages/server/src/bot/bot-orchestrator.service.ts:109-147 | Name number i of the batch is assigned to process i / 50 with the given server and batch and is no recent one; every other name keeps its entries; each process used is a new worker heard of now; names are distinct and built from the prefix. |
| BotOrchestrator.BotOrchestrator.StopBots | packages/server/src/bot/bot-orchestrator.service.ts:158-188 | The loops over names and workers stop the named bots at once, in any order of workers. |
| BotOrchestrator.BotOrchestrator.StopAll | packages/server/src/bot/bot-orchestrator.service.ts:264-273 | All workers are killed and their reports moved to the stopped bots. |
| BotOrchestrator.BotOrchestrator.HandleWorkerExit | packages/server/src/bot/bot-orchestrator.service.ts:384-397 | Removes the process from the maps of all three services. |
| BotOrchestrator.WorkerPool.HeartbeatSweep | packages/server/src/bot/worker-pool.service.ts:163-184 | Connected workers silent for more than 25 s are killed, the other connected ones pinged. |
| BotOrchestrator.WorkerPool.ProcessPong | packages/server/src/bot/worker-pool.service.ts:150-161 | A pong renews the heartbeat of a known worker only. |
| BotOrchestrator.BotStateService.Absorb | packages/server/src/bot/bot-state.service.ts:31-37 | A report replaces the worker's list and revives the reported bots. |
| BotOrchestrator.BotStateService.RemoveWorker | packages/server/src/bot/bot-state.service.ts:79-106 | The bots of a removed worker become stopped bots. |
| BotFleet.EveryRunKeepsInv | packages/server/src/bot/bot-orchestrator.service.ts:109-188 | In every run each assignment points to a process spawned and not exited, no worker has more than 50 bots, and no bot is both assigned and recent. |
| BotFleet.ExitedPidIsForgotten | packages/server/src/bot/bot-orchestrator.service.ts:384-397 | After an exit nothing mentions the process until a new process gets its pid. |
| BotFleet.StopKillsExactlyTheEmptied | packages/server/src/bot/bot-orchestrator.service.ts:181-186 | A stop kills a worker exactly when it was touched and has no assignment left. |
| BotFleet.StopMovesTheNamed | packages/server/src/bot/bot-orchestrator.service.ts:173-179 | A stopped bot keeps its assignment as the recent one; the others are unaffected. |
| BotFleet.EmptyWorkersSurviveStops | packages/server/src/bot/bot-orchestrator.service.ts:158-188 | A worker whose bots were all taken over by a later batch survives a stop that names every assigned bot. |
| BotFleetFacts.BatchIsAssigned | packages/server/src/bot/bot-orchestrator.service.ts:109-147 | For any full chunks of distinct names: bot number i runs on process i / 50, all other bots and workers stay as they were. |
| BotFleetFacts.StopUndoesBatch | packages/server/src/bot/bot-orchestrator.service.ts:109-188 | Stopping all bots of a batch after it was created kills exactly its processes; every other bot and worker is as before the batch, and its bots are recent ones. |
| BotFleetFacts.AssignmentFollowsEvents | packages/server/src/bot/bot-orchestrator.service.ts:109-397 | In every run a bot is assigned to the process of the last batch that named it, unless it or everything was stopped or that process exited since. |
| BotFleetFacts.SweepKillsIff | packages/server/src/bot/worker-pool.service.ts:163-184 | In every run a sweep kills a worker if and only if it is connected and was last spawned or heard of more than 25 s ago; the other connected ones are pinged. |
| BotFleetFacts.StopEachWorker | packages/server/src/bot/bot-orchestrator.service.ts:158-188 | A stop kills exactly the workers of which some bot is named and every bot is; their reports go, nothing else of a process changes. |
| BotFleetFacts.WorkerStep | packages/server/src/bot/worker-pool.service.ts:150-161 | Apart from stops and sweeps, a process becomes a worker by a batch, is renewed only by its own pong, and ceases to be one by its exit or when everything is stopped. |
| BotFleetFacts.ReportStep | packages/server/src/bot/bot-state.service.ts:31-106 | What a process last reported stays until it reports again or goes. |
| BotFleetFacts.StoppedStep | packages/server/src/bot/bot-state.service.ts:31-106 | A bot becomes a stopped one exactly when a report that names it goes, and ceases to be one when a worker reports it. |
| ChatDedup.BotRealtimeService.PushChatMessage | packages/server/src/bot/bot-realtime.service.ts:117-149 | A message is broadcast, and recorded with its text, bot and time, if and only if none of the last 200 records has its text and is at most 1500 ms old; otherwise the first of those that do gains a viewer. The chat buffer is the last 500 broadcasts. |
| ChatDedup.PushIsNewIff | packages/server/src/bot/bot-realtime.service.ts:119-137 | The same for the unbounded record, with nothing else changed. |
| ChatDedup.EveryTextIsBroadcast | packages/server/src/bot/bot-realtime.service.ts:117-138 | In every run each text pushed was broadcast at most 1500 ms before the push or by the push itself. |
| ChatDedup.RepeatsAreSpaced | packages/server/src/bot/bot-realtime.service.ts:117-138 | In every run two broadcasts of one text at most 1500 ms apart have at least 200 other records between them. |
| ChatDedup.ViewersSumToPushes | packages/server/src/bot/bot-realtime.service.ts:124-135 | The viewer counts of all records ever made add up to the calls. |
| ChatDedup.SameAbsorber | packages/server/src/bot/bot-realtime.service.ts:119-127 | Searching the pruned buffer and searching the last 200 records find the same entry. |
| RateLimiter.LogQueryController.AssertRateLimit | packages/server/src/log-file/log-query.controller.ts:172-191 | Admits and records, or rejects and changes nothing; drops the table beyond 10000 keys. |
| RateLimiter.AdmissionsPerWindow | packages/server/src/log-file/log-query.controller.ts:172-190 | In every run every closed window of 1000 ms holds at most the limit of admitted requests per scope and identity, counted since the table was last cleared. |
| RateLimiter.AdmissionIsExact | packages/server/src/log-file/log-query.controller.ts:172-183 | A request is admitted exactly when fewer than the limit were admitted in the window before it, although only pruned lists are stored. |
| RateLimiter.LimiterIsExact | packages/server/src/log-file/log-query.controller.ts:172-190 | In every run the pruned table answers exactly as the plain list of accepted requests would, holds the same keys, and is dropped exactly when an accepted request would make 10001 of them. |
| RateLimiter.RejectedConsumeNothing | packages/server/src/log-file/log-query.controller.ts:178-183 | Without its rejected requests a run ends in the same table. |
| RateLimiter.TableStaysSmall | packages/server/src/log-file/log-query.controller.ts:188-190 | The table never keeps more than 10000 keys. |
| RateLimiter.KeysAreDistinct | packages/server/src/log-file/log-query.controller.ts:172-174 | For scopes without a colon the key tells scope and identity. |
| LogSearch.SearchLogFiles | packages/server/src/log-file/log-file.service.ts:150-193 | The early-stopping loops give the first maxResults matches in file and line order, or reject exactly when a refused file name is reached before that. |
| LogSearch.SearchSingleServer | packages/server/src/log-file/log-file.service.ts:302-338 | A server that cannot be listed has no rows; otherwise its files in the time range are searched. |
| LogSearchFacts.LineIsReportedExactly | packages/server/src/log-file/log-file.service.ts:173-186 | A line is reported, with its number, if and only if its content, asked for or by default, or the file name, if asked for, contains the text. |
| LogSearchFacts.MatchIff | packages/server/src/log-file/log-file.service.ts:340-343 | A query matches exactly where its text stands character by character, capitals counting only if it is case sensitive. |
| LogSearchFacts.FileIsSearchedExactly | packages/server/src/log-file/log-file.service.ts:382-397 | A file is searched if and only if its time is unknown or within the bounds that are given. |
| LogSearchFacts.HitsAreInOrder | packages/server/src/log-file/log-file.service.ts:162-186 | Hits come in the order of the files, and within a file in the order of its lines. |
| LogSearchFacts.NameIsAcceptedIff | packages/server/src/log-file/log-file.service.ts:515-522 | A file name is accepted if and only if it has no slash, no backslash and no two dots in a row, and one of the three endings. |
| LogSearchFacts.LimitsAre | packages/server/src/log-file/log-file.service.ts:195-211 | Without a limit 200 rows a server and 500 in all are returned; limits are kept between 1 and 500, or 1 and 2000. |
| LogSearchFacts.RowShows | packages/server/src/log-file/log-file.service.ts:345-380 | A row always shows its server and line; its file and content only if no fields or these are asked for. |
| LogSearch.PlacesDoNotRepeat | packages/server/src/log-file/log-file.service.ts:162-186 | With distinct file names no file and line is reported twice. |
| LogAggregate.AggregateSearch | packages/server/src/log-file/log-file.service.ts:195-241 | The batched, early-exiting search equals: the first maxTotal of the distinct rows of all servers in order, unless it asks a server whose search rejects. |
| LogAggregateFacts.BatchingMattersIff | packages/server/src/log-file/log-file.service.ts:222-238 | If no search rejects the batch size never matters; otherwise it does exactly when the total is reached within the batch of the first rejecting server. |
| LogAggregateFacts.FirstRejectingDecides | packages/server/src/log-file/log-file.service.ts:222-227 | The search fails exactly when the total is not reached before the batch of the first server whose search rejects. |
| LogAggregateFacts.BatchOfFourCanFail | packages/server/src/log-file/log-file.service.ts:222-227 | A search that fails in batches of four and succeeds one server at a time. |
| LogAggregateFacts.KeyIsInjective | packages/server/src/log-file/log-file.service.ts:370-380 | For ids and file names without a bar the key tells the whole row. |
| LogAggregateFacts.FilesCollideIff | packages/server/src/log-file/log-file.service.ts:370-380 | For two files of one server, whatever its id: rows of theirs can share a key if and only if one name is the other followed by a bar, a line number and then nothing or another bar. |
| LogAggregateFacts.SharedKeyOverlaps | packages/server/src/log-file/log-file.service.ts:370-380 | Two rows of one server that share a key tell which name reads as a row of the other. |
| LogAggregateFacts.KeysTellRowsIff | packages/server/src/log-file/log-file.service.ts:150-193 | For the file names of one server: no search of any contents with any query and limit finds two rows with one key if and only if no name reads as a row of another. |
| LogAggregateFacts.BarsCanHideRows | packages/server/src/log-file/log-file.service.ts:370-380 | On one server a line of the file a.log reads as a row of a second file, whose name begins with a.log and a bar: a search finds two rows and returns one. |
| LogAggregateFacts.NothingIsDropped | packages/server/src/log-file/log-file.service.ts:229-237 | For distinct ids, bar-free where listed, and file names of which none reads as a row of another on its server, the result is the first rows of the plain concatenation. |
| LogAggregateFacts.RequestedServersAreAskedOnce | packages/server/src/log-file/log-file.service.ts:212-217 | Each requested, trimmed, non-blank id is asked once; with none, the configured servers are. |
| LogAggregateFacts.EveryRequestedServerIsAsked | packages/server/src/log-file/log-file.service.ts:212-217 | While fewer than 200 servers are asked, every id that is requested and not blank is among them. |
| FirstOccurrence.DedupKeepsFirst | packages/server/src/log-file/log-file.service.ts:370-380 | Every kept element is the first one with its key. |
| FirstOccurrence.DedupKeepsEachKeyOnce | packages/server/src/log-file/log-file.service.ts:370-380 | Every key is kept, once. |
| FirstOccurrence.DedupKeepsOrder | packages/server/src/log-file/log-file.service.ts:370-380 | Elements that are kept stay in order. |
| LogTail.TailLogFile | packages/server/src/log-file/log-file.service.ts:116-147 | Whatever the chunk boundary, the result is the last lines of the file: as many as wanted if the chunk covers it, else as many as the chunk has line breaks, at most the wanted number. |
| LogTail.TailIsCompleteIff | packages/server/src/log-file/log-file.service.ts:130-143 | All wanted lines are returned exactly when the chunk covers the file or has that many line breaks. |
| LogTail.TailIsMaximal | packages/server/src/log-file/log-file.service.ts:130-143 | Of the wanted lines the last n are returned if and only if the file, or these lines and the line break before them, fit into 200 bytes a wanted line. |
| LogTail.TailSplitsBack | packages/server/src/log-file/log-file.service.ts:138-143 | The returned text splits back into the returned lines. |
| LogTail.LongLineHidesTail | packages/server/src/log-file/log-file.service.ts:130-143 | A chunk without a line break gives no line at all. |
| JavaHelper.JavaHelperService.SendCommand | packages/server/src/java-helper/java-helper.service.ts:87-104 | A request gets the next number, a timer and a place at the end of the table, or throws if the process is not running. |
| JavaHelper.JavaHelperService.HandleResponse | packages/server/src/java-helper/java-helper.service.ts:297-309 | A message settles the oldest pending request, whatever it answers. |
| JavaHelper.JavaHelperService.OnLine | packages/server/src/java-helper/java-helper.service.ts:59-72 | A ready message only marks the helper ready; every other message is taken as an answer. |
| JavaHelper.JavaHelperService.OnTimeout | packages/server/src/java-helper/java-helper.service.ts:96-99 | A live timer settles its own request and keeps the order of the others. |
| JavaHelper.JavaHelperService.OnExit | packages/server/src/java-helper/java-helper.service.ts:78-84 | Every pending request is rejected in order. |
| JavaHelper.JavaHelperService.OnModuleDestroy | packages/server/src/java-helper/java-helper.service.ts:458-461 | Every pending request is rejected in order. |
| HelperQueue.EachRequestIsSettledOnce | packages/server/src/java-helper/java-helper.service.ts:87-104 | In every run each request sent is pending or settled, exactly once. |
| HelperQueue.EverySentRequestIsKnown | packages/server/src/java-helper/java-helper.service.ts:87-104 | In every run the numbers of requests are exactly those up to the count of sends to a running process, and each is pending or was settled once. |
| HelperQueue.SendOutcome | packages/server/src/java-helper/java-helper.service.ts:87-104 | A request that is sent is the newest pending one. |
| HelperQueue.TimeoutOutcome | packages/server/src/java-helper/java-helper.service.ts:96-99 | A timeout settles exactly its own request if that is pending, and keeps the order of the others. |
| HelperQueue.StrayOutcome | packages/server/src/java-helper/java-helper.service.ts:297-309 | A message that answers nothing settles the oldest pending request. |
| HelperQueue.EndOutcome | packages/server/src/java-helper/java-helper.service.ts:311-317 | Exit and destroy reject all pending requests in the order of sending. |
| HelperQueue.ExitCutsAnswers | packages/server/src/java-helper/java-helper.service.ts:78-84 | Of the answers a process owes when it exits only those already in the pipe arrive. |
| HelperQueue.NothingIsPendingAfterEnd | packages/server/src/java-helper/java-helper.service.ts:311-317 | After exit or destroy nothing is pending, no timer is live and every request is settled. |
| HelperQueue.MessagesSettleInIssueOrder | packages/server/src/java-helper/java-helper.service.ts:297-309 | In every run messages settle requests in the order they were sent. |
| HelperQueue.AnswerReachesItsRequestIff | packages/server/src/java-helper/java-helper.service.ts:297-309 | The next answer settles its own request exactly when that is not yet settled; otherwise it settles the oldest other pending one. |
| HelperQueue.LateAnswerIsMisdelivered | packages/server/src/java-helper/java-helper.service.ts:96-104 | After a timeout the late answer goes to the next request. |
| HelperQueue.CalmRunsMatch | packages/server/src/java-helper/java-helper.service.ts:297-309 | In runs without timeout, destroy and stray or late messages the k-th settlement is that of the k-th request and every answer reaches its own. |
| JmxBuckets.GetAggregatedJmxHistory | packages/server/src/java-helper/jvm-capability.facade.ts:292-343 | The grouping loop and the sort give, for each start that has samples, the summary of its samples, of which the last maxPoints are kept. |
| JmxBuckets.StartsHaveItems | packages/server/src/java-helper/jvm-capability.facade.ts:307-318 | The bucket starts are exactly those with samples, strictly increasing. |
| JmxBucketFacts.BucketsAreApart | packages/server/src/java-helper/jvm-capability.facade.ts:310-326 | Starts are multiples of the interval, buckets are half-open, non-empty and do not overlap. |
| JmxBucketFacts.SampleIsInOneBucket | packages/server/src/java-helper/jvm-capability.facade.ts:308-315 | Every sample with a valid time lies in exactly one bucket and is counted there. |
| JmxBucketFacts.CountsSumToValid | packages/server/src/java-helper/jvm-capability.facade.ts:308-327 | The sample counts add up to the number of samples with a valid time. |
| JmxBucketFacts.AverageTimesCount | packages/server/src/java-helper/jvm-capability.facade.ts:28-32 | The average taken once for each non-null value is their sum; it is null exactly when there are none. |
| JmxBucketFacts.AveragesKeepTotals | packages/server/src/java-helper/jvm-capability.facade.ts:317-339 | For each metric the averages weighted by their counts add up to the sum over all valid samples. |
| JmxBucketFacts.BucketReports | packages/server/src/java-helper/jvm-capability.facade.ts:320-339 | A bucket reports the averages of its samples and the process id of the last sample that falls into it. |
| JmxBucketFacts.AverageIsWithin | packages/server/src/java-helper/jvm-capability.facade.ts:28-32 | There is an average exactly when some sample has a value, and it lies between any bounds that all values keep, so samples without a value do not count. |
| JmxBucketFacts.IntervalIs | packages/server/src/java-helper/jvm-capability.facade.ts:299-299 | The interval is the whole number of seconds asked for, at least one. |
| JmxBucketFacts.PointsReturned | packages/server/src/java-helper/jvm-capability.facade.ts:341-342 | No limit keeps the last 60 buckets, a positive one the last, zero all of them; a negative one drops from the front. |
| Manifest.ParseManifestText | packages/server/src/java-helper/jar-scan.util.ts:7-35 | The loop computes the parse of the text's lines. |
| Manifest.WrittenManifestIsReadBack | packages/server/src/java-helper/jar-scan.util.ts:7-35 | Round trip: headers written one a line are read back as their map, the later of two equal names counting. |
| Manifest.HeaderFoldIff | packages/server/src/java-helper/jar-scan.util.ts:16-31 | Folding a header line after its colon changes nothing exactly when its value has begun or the rest does not start with white space, with the cases of an empty name. |
| Manifest.FoldingKeepsManifest | packages/server/src/java-helper/jar-scan.util.ts:11-31 | Inserting a line break and a space inside a header's value or a continuation line leaves the manifest of the whole text unchanged. |
| Manifest.AnyNumberOfFolds | packages/server/src/java-helper/jar-scan.util.ts:11-31 | So does any number of such folds, one after another. |
| Manifest.NamelessHeaderLosesFold | packages/server/src/java-helper/jar-scan.util.ts:17-20 | A header without a name loses what is folded. |
| Manifest.PaddedHeader | packages/server/src/java-helper/jar-scan.util.ts:16-31 | White space around the name of a header and before its value makes no difference. |
| Manifest.OtherLineEndsHeader | packages/server/src/java-helper/jar-scan.util.ts:11-28 | After an empty line, or one that is neither header nor continuation, continuation lines are ignored. |
| Manifest.LineEndsDoNotMatter | packages/server/src/java-helper/jar-scan.util.ts:11-11 | A carriage return before a line feed makes no difference. |
| FileVersionService.FileVersionService.CreateVersion | packages/server/src/file-manager/file-version.service.ts:29-46 | Inserts the version and prunes its file by deleting rows one by one. |
| FileVersionService.FileVersionService.PruneOldVersions | packages/server/src/file-manager/file-version.service.ts:72-96 | Deletes exactly the surplus: automatic versions first, then manual ones, oldest first. |
| FileVersionFacts.TableHoldsPrunedHistory | packages/server/src/file-manager/file-version.service.ts:29-46 | After any creations, of any files, a file has exactly the versions that pruning its whole history once would leave. |
| FileVersionFacts.SurvivorsAreTheNewest | packages/server/src/file-manager/file-version.service.ts:72-96 | Of n versions min(n, 50) survive: the newest min(M, 50) manual ones, and the newest automatic ones there is room for. |
| FileVersionFacts.ManualsGoLast | packages/server/src/file-manager/file-version.service.ts:83-91 | A manual version is deleted only when no automatic one is left. |
| FileVersionFacts.NewestSurvivesIff | packages/server/src/file-manager/file-version.service.ts:83-95 | A new version survives its own pruning exactly when it is manual or fewer than fifty manual ones exist. |
| FileVersionFacts.CreateTouchesOneFile | packages/server/src/file-manager/file-version.service.ts:72-96 | Creating a version changes the rows of no other file. |

## Left out

- InterleavedDanglesIff: a run that names a config number before any config got it is left out; for one start StartDanglesIff covers it.
- InterleavedStartIsAlone: holds for a start during which nobody requests, drafts or reports on the same run; InterleavedStartsAreSafe allows that too.
- ReachableStatesSatisfyInv: a bound on retries over a whole run is not claimed, since every connect installs a fresh strategy; nor is at most one live timer, since the tracked one is overwritten.
- AdmissionsPerWindow: admissions are counted since the table was last cleared, which forgets everybody's requests.
- TerminalStatesAreFinal: speaks of cancels that begin after the start section, since an earlier one is overwritten (CancelIsSafeIff); the second writer for UPLOAD tasks in packages/server/src/file-manager/file-manager.controller.ts bypasses the executor and is not modelled.
- Run lemmas of the lifecycle take any sequence of handlers and callbacks, which includes every schedule of the event loop; cleanup of an old client is assumed not to throw.
- Heartbeats, time stamps of connections, error texts and last disconnect reasons of bots.
- The classification of a task failure by text search: the failure class is an input. Of failing database calls and event listeners only exceptions after a row write are modelled.
- Allocating a port and initialising a workspace are one call of the saga; evidence contents and the later stages of a validation run appear only as calls and as reported status changes.
- Messages to worker processes, fork failures, the details of stopped-bot snapshots, messages after an exit event and reuse of a pid before the exit is handled.
- Queries of recent bot events and recent chat, which filter and reverse a buffer.
- Reading directories, decoding, compression and sizes over the read limit: a file is its text, or unreadable; text is single-byte, and only ASCII letters change case and ASCII space is trimmed.
- A server whose configuration disappears between listing and searching its files.
- The cap on rows that the metric store applies before aggregation, and rounding of averages.
- The order of versions with equal time stamps is their order of creation; listing and reading versions.
- The state label of the Java helper and its start-up; the fallback that guesses entry classes of a jar.
- Sockets, mineflayer, child processes, SSH, HTTP and SQL appear as events or as calls that may fail.
