/**
 Starting a local validation run: a sequence of store, config and lifecycle calls with
 compensation, in which every call may fail before it takes effect or after.
 */
module ValidationSaga {
  import opened Collections

  datatype Status = CREATED | PROVISIONING | STARTING | READY | FAILED_PROVISION | FAILED_STARTUP | Elsewhere

  datatype FailureCode =
    | PaperWorkspaceInitFailed
    | ConfigCreateFailed
    | BookkeepingFailed
    | ServerStartFailed
    | ReadyPersistFailed

  /** A stored run; `initPaper` is its mode, the only one that can be started. */
  datatype Run = Run(initPaper: bool, status: Status, serverId: Option<nat>, failureCode: Option<FailureCode>)

  /** What the environment does to one call. */
  datatype Fault = NoFault | FailsBefore | FailsAfter

  datatype Op =
    | ReadRun(runId: string)
    | WriteRun(runId: string, status: Status)
    | Provision(runId: string)
    | CreateConfig(runId: string)
    | StartServer(configId: nat)
    | StopServer(configId: nat)
    | DeleteConfig(configId: nat)
    | AppendEvidence(runId: string)

  /** A call that was made: did it report success, did it take effect, was the world safe after it. */
  datatype Call = Call(op: Op, ok: bool, applied: bool, safe: bool)

  /**
   The stored runs, the live server configs with the run they belong to, the running servers
   (named by their config), the runs being started, the faults to come and the calls made.
   */
  datatype World = World(
    runs: map<string, Run>,
    configs: map<nat, string>,
    servers: set<nat>,
    nextConfig: nat,
    activeStarts: set<string>,
    faults: seq<Fault>,
    trace: seq<Call>)

  datatype Error = AlreadyStarting | NotCreated | UnsupportedMode | CallFailed(index: nat)

  datatype Outcome = Started | Thrown(error: Error)

  /** Nothing live belongs to a run that is stored as CREATED, and no running server lacks its config. */
  predicate Safe(w: World) {
    && w.servers <= w.configs.Keys
    && (forall c :: c in w.configs ==>
          w.configs[c] in w.runs && w.runs[w.configs[c]].status != CREATED)
    && (forall c, d :: c in w.configs && d in w.configs && w.configs[c] == w.configs[d] ==> c == d)
  }

  // External calls

  function NextFault(w: World): Fault {
    if w.faults == [] then NoFault else w.faults[0]
  }

  /** Consumes a fault, replaces the world by `effect` if the call applies, and records the call. */
  function Perform(w: World, op: Op, possible: bool, effect: World): (World, bool) {
    var ok := possible && NextFault(w) == NoFault;
    var applied := possible && NextFault(w) != FailsBefore;
    var rest := if w.faults == [] then [] else w.faults[1..];
    var after := (if applied then effect else w).(faults := rest);
    (after.(trace := w.trace + [Call(op, ok, applied, Safe(after))]), ok)
  }

  function Read(w: World, id: string): (World, bool) {
    Perform(w, ReadRun(id), id in w.runs, w)
  }

  /** The new row of a status update. `serverId` and `failureCode` are absent when the patch leaves them. */
  function Patched(r: Run, status: Status, serverId: Option<Option<nat>>, failureCode: Option<Option<FailureCode>>): Run {
    r.(status := status, serverId := serverId.GetOr(r.serverId), failureCode := failureCode.GetOr(r.failureCode))
  }

  /** Status update followed by the event, which fails after the write if a listener throws. */
  function Write(w: World, id: string, status: Status, serverId: Option<Option<nat>>,
                 failureCode: Option<Option<FailureCode>>): (World, bool) {
    var runs := if id in w.runs
                then w.runs[id := Patched(w.runs[id], status, serverId, failureCode)] else w.runs;
    Perform(w, WriteRun(id, status), id in w.runs, w.(runs := runs))
  }

  function PersistFailure(w: World, id: string, status: Status, serverId: Option<nat>, code: FailureCode): (World, bool) {
    Write(w, id, status, Some(serverId), Some(Some(code)))
  }

  function RollbackToCreated(w: World, id: string): (World, bool) {
    Write(w, id, CREATED, Some(None), Some(None))
  }

  function Evidence(w: World, id: string): World {
    Perform(w, AppendEvidence(id), true, w).0
  }

  function Delete(w: World, c: nat): (World, bool) {
    Perform(w, DeleteConfig(c), true, w.(configs := w.configs - {c}))
  }

  function Stop(w: World, c: nat): (World, bool) {
    Perform(w, StopServer(c), true, w.(servers := w.servers - {c}))
  }

  function Create(w: World, id: string): (World, bool) {
    var c := w.nextConfig;
    Perform(w, CreateConfig(id), true, w.(configs := w.configs[c := id], nextConfig := c + 1))
  }

  function Boot(w: World, c: nat): (World, bool) {
    Perform(w, StartServer(c), true, w.(servers := w.servers + {c}))
  }

  // The start sequence

  /** The error of the call made last. */
  function LastError(w: World): Outcome
    requires w.trace != []
  {
    Thrown(CallFailed(|w.trace| - 1))
  }

  function CompensatePreStart(w: World, id: string, c: nat): World {
    var (w1, failedPersisted) := PersistFailure(w, id, FAILED_PROVISION, Some(c), BookkeepingFailed);
    var (w2, deleted) := Delete(w1, c);
    if !deleted then
      var w3 := if failedPersisted then w2
                else PersistFailure(w2, id, FAILED_PROVISION, Some(c), BookkeepingFailed).0;
      Evidence(w3, id)
    else Uncreate(w2, id, FAILED_PROVISION, BookkeepingFailed)
  }

  function CompensateReady(w: World, id: string, c: nat): World {
    var (w1, failedPersisted) := PersistFailure(w, id, FAILED_STARTUP, Some(c), ReadyPersistFailed);
    var (w2, stopped) := Stop(w1, c);
    var (w3, deleted) := if stopped then Delete(w2, c) else (w2, false);
    if !deleted then
      var w4 := if failedPersisted then w3
                else PersistFailure(w3, id, FAILED_STARTUP, Some(c), ReadyPersistFailed).0;
      Evidence(w4, id)
    else Uncreate(w3, id, FAILED_STARTUP, ReadyPersistFailed)
  }

  /** After the config is gone: back to CREATED, or failing that a failure without a server. */
  function Uncreate(w: World, id: string, status: Status, code: FailureCode): World {
    var (w1, rolledBack) := RollbackToCreated(w, id);
    if rolledBack then w1 else Evidence(PersistFailure(w1, id, status, None, code).0, id)
  }

  function StartRun(w: World, id: string): (World, Outcome) {
    if id in w.activeStarts then (w, Thrown(AlreadyStarting))
    else
      var (w1, outcome) := Begin(w.(activeStarts := w.activeStarts + {id}), id);
      (w1.(activeStarts := w1.activeStarts - {id}), outcome)
  }

  function Begin(w: World, id: string): (World, Outcome) {
    var (w1, found) := Read(w, id);
    if !found then (w1, LastError(w1))
    else if w1.runs[id].status != CREATED then (w1, Thrown(NotCreated))
    else if !w1.runs[id].initPaper then (w1, Thrown(UnsupportedMode))
    else MarkProvisioning(w1, id)
  }

  function MarkProvisioning(w: World, id: string): (World, Outcome) {
    var (w1, marked) := Write(w, id, PROVISIONING, None, None);
    if marked then Prepare(w1, id) else (w1, LastError(w1))
  }

  function Prepare(w: World, id: string): (World, Outcome) {
    var (w1, prepared) := Perform(w, Provision(id), true, w);
    if prepared then Configure(w1, id) else (FailProvision(w1, id, PaperWorkspaceInitFailed), LastError(w1))
  }

  function Configure(w: World, id: string): (World, Outcome) {
    var (w1, made) := Create(w, id);
    if made then Attach(w1, id, w.nextConfig) else (FailProvision(w1, id, ConfigCreateFailed), LastError(w1))
  }

  function FailProvision(w: World, id: string, code: FailureCode): World {
    Evidence(PersistFailure(w, id, FAILED_PROVISION, None, code).0, id)
  }

  function Attach(w: World, id: string, c: nat): (World, Outcome) {
    var (w1, attached) := Write(w, id, PROVISIONING, Some(Some(c)), None);
    if attached then MarkStarting(w1, id, c) else (CompensatePreStart(w1, id, c), LastError(w1))
  }

  function MarkStarting(w: World, id: string, c: nat): (World, Outcome) {
    var (w1, marked) := Write(w, id, STARTING, Some(Some(c)), None);
    if marked then Launch(w1, id, c) else (CompensatePreStart(w1, id, c), LastError(w1))
  }

  function Launch(w: World, id: string, c: nat): (World, Outcome) {
    var (w1, launched) := Boot(w, c);
    if launched then MarkReady(w1, id, c)
    else (Evidence(PersistFailure(w1, id, FAILED_STARTUP, Some(c), ServerStartFailed).0, id), LastError(w1))
  }

  function MarkReady(w: World, id: string, c: nat): (World, Outcome) {
    var (w1, marked) := Write(w, id, READY, Some(Some(c)), None);
    if marked then (Evidence(w1, id), Started) else (CompensateReady(w1, id, c), LastError(w1))
  }
}
