/**
 The orchestrator object: the set of starts in progress and the sequence of store, config and
 lifecycle calls, with failures as early returns. Each method does what the function of the
 same stage in ValidationSaga says, so everything proved there holds of these methods.
 */
module ValidationOrchestrator {
  import opened Collections
  import opened ValidationSaga
  import Saga = ValidationSaga

  class Orchestrator {
    var activeStarts: set<string>
    /** The stored runs. */
    var runs: map<string, Run>
    /** Live server configs with the run each belongs to, running servers, next config number. */
    var configs: map<nat, string>
    var servers: set<nat>
    var nextConfig: nat
    /** Which of the coming calls fail, and the calls made so far. */
    var faults: seq<Fault>
    var trace: seq<Call>

    constructor (faults: seq<Fault>)
      ensures View() == World(map[], map[], {}, 0, {}, faults, [])
    {
      activeStarts, runs, configs, servers, nextConfig := {}, map[], map[], {}, 0;
      this.faults, trace := faults, [];
    }

    function View(): World
      reads this
    {
      World(runs, configs, servers, nextConfig, activeStarts, faults, trace)
    }

    /** Takes the next fault: does the call take effect, and does it report success? */
    method Consult(possible: bool) returns (ok: bool, applied: bool)
      modifies this`faults
      ensures ok == (possible && NextFault(old(View())) == NoFault)
      ensures applied == (possible && NextFault(old(View())) != FailsBefore)
      ensures faults == if old(faults) == [] then [] else old(faults)[1..]
    {
      var fault := if faults == [] then NoFault else faults[0];
      if faults != [] {
        faults := faults[1..];
      }
      ok := possible && fault == NoFault;
      applied := possible && fault != FailsBefore;
    }

    method Record(op: Op, ok: bool, applied: bool)
      modifies this`trace
      ensures trace == old(trace) + [Call(op, ok, applied, Safe(old(View())))]
    {
      trace := trace + [Call(op, ok, applied, Safe(View()))];
    }

    method RequireRun(id: string) returns (ok: bool)
      modifies this`faults, this`trace
      ensures (View(), ok) == Read(old(View()), id)
    {
      var applied;
      ok, applied := Consult(id in runs);
      Record(ReadRun(id), ok, applied);
    }

    method UpdateRunStatusAndEmit(id: string, status: Status, serverId: Option<Option<nat>>,
                                  failureCode: Option<Option<FailureCode>>)
      returns (ok: bool)
      modifies this`faults, this`trace, this`runs
      ensures (View(), ok) == Write(old(View()), id, status, serverId, failureCode)
    {
      var applied;
      ok, applied := Consult(id in runs);
      if applied {
        runs := runs[id := Patched(runs[id], status, serverId, failureCode)];
      }
      Record(WriteRun(id, status), ok, applied);
    }

    method PersistRunFailureStatus(id: string, status: Status, serverId: Option<nat>, code: FailureCode)
      returns (ok: bool)
      modifies this`faults, this`trace, this`runs
      ensures (View(), ok) == PersistFailure(old(View()), id, status, serverId, code)
    {
      ok := UpdateRunStatusAndEmit(id, status, Some(serverId), Some(Some(code)));
    }

    method RollbackRunToCreated(id: string) returns (ok: bool)
      modifies this`faults, this`trace, this`runs
      ensures (View(), ok) == RollbackToCreated(old(View()), id)
    {
      ok := UpdateRunStatusAndEmit(id, CREATED, Some(None), Some(None));
    }

    method RecordEvidence(id: string)
      modifies this`faults, this`trace
      ensures View() == Evidence(old(View()), id)
    {
      var ok, applied := Consult(true);
      Record(AppendEvidence(id), ok, applied);
    }

    method CleanupCreatedConfig(c: nat) returns (ok: bool)
      modifies this`faults, this`trace, this`configs
      ensures (View(), ok) == Delete(old(View()), c)
    {
      var applied;
      ok, applied := Consult(true);
      if applied {
        configs := configs - {c};
      }
      Record(DeleteConfig(c), ok, applied);
    }

    method StopLifecycle(c: nat) returns (ok: bool)
      modifies this`faults, this`trace, this`servers
      ensures (View(), ok) == Stop(old(View()), c)
    {
      var applied;
      ok, applied := Consult(true);
      if applied {
        servers := servers - {c};
      }
      Record(StopServer(c), ok, applied);
    }

    method StartLifecycle(c: nat) returns (ok: bool)
      modifies this`faults, this`trace, this`servers
      ensures (View(), ok) == Boot(old(View()), c)
    {
      var applied;
      ok, applied := Consult(true);
      if applied {
        servers := servers + {c};
      }
      Record(StartServer(c), ok, applied);
    }

    method InitializeWorkspace(id: string) returns (ok: bool)
      modifies this`faults, this`trace
      ensures (View(), ok) == Perform(old(View()), Op.Provision(id), true, old(View()))
    {
      var applied;
      ok, applied := Consult(true);
      Record(Op.Provision(id), ok, applied);
    }

    method CreateManagedServerConfig(id: string) returns (ok: bool)
      modifies this`faults, this`trace, this`configs, this`nextConfig
      ensures (View(), ok) == Create(old(View()), id)
    {
      var applied;
      ok, applied := Consult(true);
      if applied {
        configs := configs[nextConfig := id];
        nextConfig := nextConfig + 1;
      }
      Record(CreateConfig(id), ok, applied);
    }

    method Uncreate(id: string, status: Status, code: FailureCode)
      modifies this`faults, this`trace, this`runs
      ensures View() == Saga.Uncreate(old(View()), id, status, code)
    {
      var rolledBack := RollbackRunToCreated(id);
      if rolledBack {
        return;
      }
      var _ := PersistRunFailureStatus(id, status, None, code);
      RecordEvidence(id);
    }

    method CompensatePreStartBookkeepingFailure(id: string, c: nat)
      modifies this`faults, this`trace, this`runs, this`configs
      ensures View() == CompensatePreStart(old(View()), id, c)
    {
      var failedPersisted := PersistRunFailureStatus(id, FAILED_PROVISION, Some(c), BookkeepingFailed);
      var deleteSucceeded := CleanupCreatedConfig(c);
      if !deleteSucceeded {
        if !failedPersisted {
          var _ := PersistRunFailureStatus(id, FAILED_PROVISION, Some(c), BookkeepingFailed);
        }
        RecordEvidence(id);
        return;
      }
      Uncreate(id, FAILED_PROVISION, BookkeepingFailed);
    }

    method CompensateReadyPersistenceFailure(id: string, c: nat)
      modifies this`faults, this`trace, this`runs, this`configs, this`servers
      ensures View() == CompensateReady(old(View()), id, c)
    {
      var failedPersisted := PersistRunFailureStatus(id, FAILED_STARTUP, Some(c), ReadyPersistFailed);
      var stopped := StopLifecycle(c);
      var deleteSucceeded := false;
      if stopped {
        deleteSucceeded := CleanupCreatedConfig(c);
      }
      if !deleteSucceeded {
        if !failedPersisted {
          var _ := PersistRunFailureStatus(id, FAILED_STARTUP, Some(c), ReadyPersistFailed);
        }
        RecordEvidence(id);
        return;
      }
      Uncreate(id, FAILED_STARTUP, ReadyPersistFailed);
    }

    /** The stages after the config exists; `failed` is the index of the call whose error is thrown. */
    method RunServer(id: string, c: nat) returns (outcome: Outcome)
      modifies this`faults, this`trace, this`runs, this`configs, this`servers
      ensures (View(), outcome) == Launch(old(View()), id, c)
    {
      var launched := StartLifecycle(c);
      var failed := Thrown(CallFailed(|trace| - 1));
      if !launched {
        var _ := PersistRunFailureStatus(id, FAILED_STARTUP, Some(c), ServerStartFailed);
        RecordEvidence(id);
        return failed;
      }
      var ready := UpdateRunStatusAndEmit(id, READY, Some(Some(c)), None);
      failed := Thrown(CallFailed(|trace| - 1));
      if !ready {
        CompensateReadyPersistenceFailure(id, c);
        return failed;
      }
      RecordEvidence(id);
      return Started;
    }

    method AttachAndRun(id: string, c: nat) returns (outcome: Outcome)
      modifies this`faults, this`trace, this`runs, this`configs, this`servers
      ensures (View(), outcome) == Attach(old(View()), id, c)
    {
      var attached := UpdateRunStatusAndEmit(id, PROVISIONING, Some(Some(c)), None);
      var failed := Thrown(CallFailed(|trace| - 1));
      if attached {
        attached := UpdateRunStatusAndEmit(id, STARTING, Some(Some(c)), None);
        failed := Thrown(CallFailed(|trace| - 1));
      }
      if !attached {
        CompensatePreStartBookkeepingFailure(id, c);
        return failed;
      }
      outcome := RunServer(id, c);
    }

    method ProvisionAndRun(id: string) returns (outcome: Outcome)
      modifies this`faults, this`trace, this`runs, this`configs, this`servers, this`nextConfig
      ensures (View(), outcome) == Prepare(old(View()), id)
    {
      var prepared := InitializeWorkspace(id);
      var failed := Thrown(CallFailed(|trace| - 1));
      if !prepared {
        var _ := PersistRunFailureStatus(id, FAILED_PROVISION, None, PaperWorkspaceInitFailed);
        RecordEvidence(id);
        return failed;
      }
      outcome := ConfigureAndRun(id);
    }

    method ConfigureAndRun(id: string) returns (outcome: Outcome)
      modifies this`faults, this`trace, this`runs, this`configs, this`servers, this`nextConfig
      ensures (View(), outcome) == Configure(old(View()), id)
    {
      var c := nextConfig;
      var made := CreateManagedServerConfig(id);
      var failed := Thrown(CallFailed(|trace| - 1));
      if !made {
        var _ := PersistRunFailureStatus(id, FAILED_PROVISION, None, ConfigCreateFailed);
        RecordEvidence(id);
        return failed;
      }
      outcome := AttachAndRun(id, c);
    }

    method CheckAndRun(id: string) returns (outcome: Outcome)
      modifies this`faults, this`trace, this`runs, this`configs, this`servers, this`nextConfig
      ensures (View(), outcome) == Begin(old(View()), id)
    {
      var found := RequireRun(id);
      if !found {
        return Thrown(CallFailed(|trace| - 1));
      }
      if runs[id].status != CREATED {
        return Thrown(NotCreated);
      }
      if !runs[id].initPaper {
        return Thrown(UnsupportedMode);
      }
      var marked := UpdateRunStatusAndEmit(id, PROVISIONING, None, None);
      if !marked {
        return Thrown(CallFailed(|trace| - 1));
      }
      outcome := ProvisionAndRun(id);
    }

    method StartRun(id: string) returns (outcome: Outcome)
      modifies this
      ensures (View(), outcome) == Saga.StartRun(old(View()), id)
    {
      if id in activeStarts {
        return Thrown(AlreadyStarting);
      }
      activeStarts := activeStarts + {id};
      outcome := CheckAndRun(id);
      activeStarts := activeStarts - {id};
    }
  }
}
