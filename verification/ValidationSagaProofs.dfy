/** What every start of a validation run guarantees, for every pattern of failing calls. */
module ValidationSagaProofs {
  import opened Collections
  import opened ValidationSaga

  ghost predicate Fresh(w: World) {
    && (forall c :: c in w.configs ==> c < w.nextConfig)
    && (forall c :: c in w.servers ==> c < w.nextConfig)
  }

  /** Run `id` exists and owns no live config. */
  ghost predicate Bare(w: World, id: string) {
    Safe(w) && Fresh(w) && id in w.runs && forall d :: d in w.configs ==> w.configs[d] != id
  }

  /** Config `c` is live, it is the only one of run `id`, and the run is not stored as CREATED. */
  ghost predicate Owns(w: World, id: string, c: nat) {
    && Safe(w) && Fresh(w) && c in w.configs && w.configs[c] == id
    && id in w.runs && w.runs[id].status != CREATED
  }

  /** Nothing below config number `n` and no run but `id` differs. */
  ghost predicate Same(w: World, w': World, id: string, n: nat) {
    && w'.runs.Keys == w.runs.Keys
    && (forall r :: r in w.runs && r != id ==> w'.runs[r] == w.runs[r])
    && (forall c :: c < n ==>
          && (c in w'.configs <==> c in w.configs)
          && (c in w.configs ==> w'.configs[c] == w.configs[c])
          && (c in w'.servers <==> c in w.servers))
  }

  predicate WritesAfter(trace: seq<Call>, p: int) {
    exists q :: 0 <= q < |trace| && p < q && trace[q].op.WriteRun? && trace[q].applied
  }

  /** If deleting a config succeeded, the run refers to it only if no later store write took effect. */
  ghost predicate DeletedIsForgotten(from: nat, w': World, id: string) {
    forall p :: from <= p < |w'.trace| && w'.trace[p].op.DeleteConfig? && w'.trace[p].ok
      && id in w'.runs && w'.runs[id].serverId == Some(w'.trace[p].op.configId)
      ==> !WritesAfter(w'.trace, p)
  }

  /** What a stretch of the start sequence of run `id` does, config numbers below `n` being foreign. */
  ghost predicate Good(w: World, w': World, id: string, n: nat) {
    && w.trace <= w'.trace
    && (forall i :: |w.trace| <= i < |w'.trace| ==> w'.trace[i].safe)
    && Safe(w') && Fresh(w') && Same(w, w', id, n)
    && w'.activeStarts == w.activeStarts
    && DeletedIsForgotten(|w.trace|, w', id)
  }

  /** A stretch of a single call, with what the call reported. */
  ghost predicate Once(w: World, w': World, ok: bool, id: string, n: nat) {
    && |w'.trace| == |w.trace| + 1 && w.trace <= w'.trace
    && w'.trace[|w.trace|].safe && w'.trace[|w.trace|].ok == ok
    && Safe(w') && Fresh(w') && Same(w, w', id, n) && w'.activeStarts == w.activeStarts
  }

  predicate IsDelete(w: World, w': World)
    requires |w'.trace| == |w.trace| + 1
  {
    w'.trace[|w.trace|].op.DeleteConfig?
  }

  predicate IsEvidence(w: World, w': World)
    requires |w'.trace| == |w.trace| + 1
  {
    w'.trace[|w.trace|].op.AppendEvidence?
  }

  lemma OnceThenGood(w: World, w1: World, ok: bool, w': World, id: string, n: nat)
    requires Once(w, w1, ok, id, n) && (!IsDelete(w, w1) || !ok) && Good(w1, w', id, n)
    ensures Good(w, w', id, n)
  {
    assert w'.trace[|w.trace|] == w1.trace[|w.trace|];
  }

  lemma OnceIsGood(w: World, w': World, ok: bool, id: string, n: nat)
    requires Once(w, w', ok, id, n) && (!IsDelete(w, w') || !ok)
    ensures Good(w, w', id, n)
  {
  }

  // Single calls

  lemma WriteOnce(w: World, id: string, status: Status, serverId: Option<Option<nat>>,
                  code: Option<Option<FailureCode>>, n: nat)
    requires Safe(w) && Fresh(w) && id in w.runs && (status != CREATED || Bare(w, id))
    ensures var (w', ok) := Write(w, id, status, serverId, code);
            && Once(w, w', ok, id, n) && !IsDelete(w, w') && !IsEvidence(w, w')
            && w'.configs == w.configs && w'.servers == w.servers && w'.nextConfig == w.nextConfig
            && var call := w'.trace[|w.trace|];
            && call.op == WriteRun(id, status) && (call.ok ==> call.applied)
            && w'.runs[id] == if call.applied then Patched(w.runs[id], status, serverId, code) else w.runs[id]
  {
  }

  lemma EvidenceOnce(w: World, id: string, n: nat)
    requires Safe(w) && Fresh(w)
    ensures var w' := Evidence(w, id);
            Good(w, w', id, n) && w'.runs == w.runs && w'.configs == w.configs && w'.servers == w.servers
            && |w'.trace| == |w.trace| + 1 && w'.trace[|w.trace|].op == AppendEvidence(id)
  {
  }

  /** A failure is persisted and then noted; nothing else changes. */
  lemma PersistThenNote(w: World, id: string, status: Status, serverId: Option<nat>, code: FailureCode, n: nat)
    requires Safe(w) && Fresh(w) && id in w.runs && status != CREATED
    ensures var w' := Evidence(PersistFailure(w, id, status, serverId, code).0, id);
            && Good(w, w', id, n) && w'.configs == w.configs && w'.servers == w.servers
            && |w'.trace| == |w.trace| + 2
            && w'.trace[|w.trace|].op.WriteRun? && w'.trace[|w.trace| + 1].op.AppendEvidence?
            && w'.runs[id].serverId ==
               (if w'.trace[|w.trace|].applied then serverId else w.runs[id].serverId)
            && w'.runs[id].status == (if w'.trace[|w.trace|].applied then status else w.runs[id].status)
  {
    WriteOnce(w, id, status, Some(serverId), Some(Some(code)), n);
    var (w1, ok) := PersistFailure(w, id, status, serverId, code);
    EvidenceOnce(w1, id, n);
    OnceThenGood(w, w1, ok, Evidence(w1, id), id, n);
  }

  // Compensation

  /** Once the config is gone every applied write clears the reference, and CREATED is safe again. */
  lemma UncreateForgets(w: World, id: string, status: Status, code: FailureCode, n: nat)
    requires Bare(w, id) && status != CREATED
    ensures var w' := Uncreate(w, id, status, code);
            && Good(w, w', id, n) && w'.configs == w.configs && w'.servers == w.servers
            && (WritesAfter(w'.trace, |w.trace| - 1) ==> w'.runs[id].serverId == None)
            && (forall i :: |w.trace| <= i < |w'.trace| ==> !w'.trace[i].op.DeleteConfig?)
  {
    WriteOnce(w, id, CREATED, Some(None), Some(None), n);
    var (w1, rolledBack) := RollbackToCreated(w, id);
    if rolledBack {
      OnceIsGood(w, w1, rolledBack, id, n);
    } else {
      FailureIsKept(w, w1, id, status, code, n);
    }
  }

  lemma FailureIsKept(w: World, w1: World, id: string, status: Status, code: FailureCode, n: nat)
    requires Once(w, w1, false, id, n) && !IsDelete(w, w1) && id in w1.runs && status != CREATED
    requires w1.trace[|w.trace|].applied ==> w1.runs[id].serverId == None
    ensures var w' := Evidence(PersistFailure(w1, id, status, None, code).0, id);
            && Good(w, w', id, n) && w'.configs == w1.configs && w'.servers == w1.servers
            && (WritesAfter(w'.trace, |w.trace| - 1) ==> w'.runs[id].serverId == None)
            && (forall i :: |w.trace| <= i < |w'.trace| ==> !w'.trace[i].op.DeleteConfig?)
  {
    PersistThenNote(w1, id, status, None, code, n);
    var w' := Evidence(PersistFailure(w1, id, status, None, code).0, id);
    OnceThenGood(w, w1, false, w', id, n);
    assert w'.trace[|w.trace|] == w1.trace[|w.trace|];
  }

  /** Delete a config whose server is not running, then put the run back or keep the failure. */
  lemma DeleteAndUncreate(w: World, id: string, c: nat, status: Status, code: FailureCode, n: nat)
    requires Owns(w, id, c) && c !in w.servers && n <= c && status != CREATED
    requires Delete(w, c).1
    ensures Good(w, Uncreate(Delete(w, c).0, id, status, code), id, n)
  {
    var w1 := Delete(w, c).0;
    var w' := Uncreate(w1, id, status, code);
    UncreateForgets(w1, id, status, code, n);
    assert w1.trace == w.trace + [w1.trace[|w.trace|]];
    assert w'.trace[|w.trace|] == w1.trace[|w.trace|];
    forall p | |w.trace| <= p < |w'.trace| && w'.trace[p].op.DeleteConfig? && w'.trace[p].ok
               && w'.runs[id].serverId == Some(w'.trace[p].op.configId)
      ensures !WritesAfter(w'.trace, p)
    {
      assert p == |w.trace|;
    }
  }

  lemma DeleteOnce(w: World, id: string, c: nat, n: nat)
    requires Owns(w, id, c) && c !in w.servers && n <= c
    ensures var (w', ok) := Delete(w, c);
            && Once(w, w', ok, id, n) && w'.runs == w.runs && w'.servers == w.servers
            && (ok ==> Bare(w', id))
  {
  }

  /** The failure already stands, or is persisted now, and is noted. */
  lemma KeepFailure(w: World, id: string, persisted: bool, status: Status, c: nat, code: FailureCode, n: nat)
    requires Safe(w) && Fresh(w) && id in w.runs && status != CREATED
    ensures Good(w, Evidence(if persisted then w else PersistFailure(w, id, status, Some(c), code).0, id), id, n)
  {
    if persisted {
      EvidenceOnce(w, id, n);
    } else {
      PersistThenNote(w, id, status, Some(c), code, n);
    }
  }

  lemma PreStartIsCompensated(w: World, id: string, c: nat, n: nat)
    requires Owns(w, id, c) && c !in w.servers && n <= c
    ensures Good(w, CompensatePreStart(w, id, c), id, n)
  {
    WriteOnce(w, id, FAILED_PROVISION, Some(Some(c)), Some(Some(BookkeepingFailed)), n);
    var (w1, persisted) := PersistFailure(w, id, FAILED_PROVISION, Some(c), BookkeepingFailed);
    DeleteOnce(w1, id, c, n);
    var (w2, deleted) := Delete(w1, c);
    if deleted {
      DeleteAndUncreate(w1, id, c, FAILED_PROVISION, BookkeepingFailed, n);
    } else {
      FailedDeleteKeepsFailure(w1, id, c, persisted, FAILED_PROVISION, BookkeepingFailed, n);
    }
    OnceThenGood(w, w1, persisted, CompensatePreStart(w, id, c), id, n);
  }

  lemma FailedDeleteKeepsFailure(w: World, id: string, c: nat, persisted: bool, status: Status, code: FailureCode, n: nat)
    requires Owns(w, id, c) && c !in w.servers && n <= c && status != CREATED && !Delete(w, c).1
    ensures var w2 := Delete(w, c).0;
            Good(w, Evidence(if persisted then w2 else PersistFailure(w2, id, status, Some(c), code).0, id), id, n)
  {
    DeleteOnce(w, id, c, n);
    var w2 := Delete(w, c).0;
    KeepFailure(w2, id, persisted, status, c, code, n);
    var w' := Evidence(if persisted then w2 else PersistFailure(w2, id, status, Some(c), code).0, id);
    OnceThenGood(w, w2, false, w', id, n);
  }

  lemma StopOnce(w: World, id: string, c: nat, n: nat)
    requires Owns(w, id, c) && n <= c
    ensures var (w', ok) := Stop(w, c);
            Once(w, w', ok, id, n) && !IsDelete(w, w') && Owns(w', id, c) && (ok ==> c !in w'.servers)
  {
  }

  lemma ReadyIsCompensated(w: World, id: string, c: nat, n: nat)
    requires Owns(w, id, c) && n <= c
    ensures Good(w, CompensateReady(w, id, c), id, n)
  {
    WriteOnce(w, id, FAILED_STARTUP, Some(Some(c)), Some(Some(ReadyPersistFailed)), n);
    var (w1, persisted) := PersistFailure(w, id, FAILED_STARTUP, Some(c), ReadyPersistFailed);
    StopOnce(w1, id, c, n);
    var (w2, stopped) := Stop(w1, c);
    var w' := CompensateReady(w, id, c);
    if !stopped {
      KeepFailure(w2, id, persisted, FAILED_STARTUP, c, ReadyPersistFailed, n);
    } else if Delete(w2, c).1 {
      DeleteAndUncreate(w2, id, c, FAILED_STARTUP, ReadyPersistFailed, n);
    } else {
      FailedDeleteKeepsFailure(w2, id, c, persisted, FAILED_STARTUP, ReadyPersistFailed, n);
    }
    OnceThenGood(w1, w2, stopped, w', id, n);
    OnceThenGood(w, w1, persisted, w', id, n);
  }

  // The start sequence

  /** Call `k` failed, it is the first failed call since `from`, and no mere evidence. */
  ghost predicate FirstFailure(from: nat, w': World, k: nat) {
    && from <= k < |w'.trace| && !w'.trace[k].ok && !w'.trace[k].op.AppendEvidence?
    && forall j :: from <= j < k ==> w'.trace[j].ok
  }

  /** A stretch together with its outcome: success leaves a ready run, an error is the first failure. */
  ghost predicate Ends(w: World, w': World, outcome: Outcome, id: string, n: nat) {
    && Good(w, w', id, n)
    && (outcome.Thrown? ==> outcome.error.CallFailed? && FirstFailure(|w.trace|, w', outcome.error.index))
    && (outcome.Started? ==>
          && id in w'.runs && w'.runs[id].status == READY && w'.runs[id].serverId.Some?
          && w'.runs[id].serverId.value in w'.servers
          && (forall j :: |w.trace| <= j < |w'.trace| && !w'.trace[j].ok ==> w'.trace[j].op.AppendEvidence?))
  }

  /** The first call of the stretch failed; what follows is compensation and its error is thrown. */
  lemma FailsHere(w: World, w1: World, w': World, id: string, n: nat)
    requires Once(w, w1, false, id, n) && !IsDelete(w, w1) && !IsEvidence(w, w1) && Good(w1, w', id, n)
    ensures Ends(w, w', LastError(w1), id, n)
  {
    OnceThenGood(w, w1, false, w', id, n);
    assert w'.trace[|w.trace|] == w1.trace[|w.trace|];
  }

  lemma Continues(w: World, w1: World, w': World, outcome: Outcome, id: string, n: nat)
    requires Once(w, w1, true, id, n) && !IsDelete(w, w1) && Ends(w1, w', outcome, id, n)
    ensures Ends(w, w', outcome, id, n)
  {
    OnceThenGood(w, w1, true, w', id, n);
    assert w'.trace[|w.trace|] == w1.trace[|w.trace|];
  }

  lemma MarkReadyEnds(w: World, id: string, c: nat, n: nat)
    requires Owns(w, id, c) && c in w.servers && n <= c
    ensures var (w', outcome) := MarkReady(w, id, c); Ends(w, w', outcome, id, n)
  {
    WriteOnce(w, id, READY, Some(Some(c)), None, n);
    var (w1, marked) := Write(w, id, READY, Some(Some(c)), None);
    var (w', outcome) := MarkReady(w, id, c);
    if marked {
      EvidenceOnce(w1, id, n);
      Continues(w, w1, w', outcome, id, n);
    } else {
      ReadyIsCompensated(w1, id, c, n);
      FailsHere(w, w1, w', id, n);
    }
  }

  lemma BootOnce(w: World, id: string, c: nat, n: nat)
    requires Owns(w, id, c) && n <= c
    ensures var (w', ok) := Boot(w, c);
            && Once(w, w', ok, id, n) && !IsDelete(w, w') && !IsEvidence(w, w')
            && Owns(w', id, c) && (ok ==> c in w'.servers)
  {
  }

  lemma LaunchEnds(w: World, id: string, c: nat, n: nat)
    requires Owns(w, id, c) && n <= c
    ensures var (w', outcome) := Launch(w, id, c); Ends(w, w', outcome, id, n)
  {
    BootOnce(w, id, c, n);
    var (w1, launched) := Boot(w, c);
    var (w', outcome) := Launch(w, id, c);
    if launched {
      MarkReadyEnds(w1, id, c, n);
      Continues(w, w1, w', outcome, id, n);
    } else {
      PersistThenNote(w1, id, FAILED_STARTUP, Some(c), ServerStartFailed, n);
      FailsHere(w, w1, w', id, n);
    }
  }

  lemma MarkStartingEnds(w: World, id: string, c: nat, n: nat)
    requires Owns(w, id, c) && c !in w.servers && n <= c
    ensures var (w', outcome) := MarkStarting(w, id, c); Ends(w, w', outcome, id, n)
  {
    WriteOnce(w, id, STARTING, Some(Some(c)), None, n);
    var (w1, marked) := Write(w, id, STARTING, Some(Some(c)), None);
    var (w', outcome) := MarkStarting(w, id, c);
    if marked {
      LaunchEnds(w1, id, c, n);
      Continues(w, w1, w', outcome, id, n);
    } else {
      PreStartIsCompensated(w1, id, c, n);
      FailsHere(w, w1, w', id, n);
    }
  }

  lemma AttachEnds(w: World, id: string, c: nat, n: nat)
    requires Owns(w, id, c) && c !in w.servers && n <= c
    ensures var (w', outcome) := Attach(w, id, c); Ends(w, w', outcome, id, n)
  {
    WriteOnce(w, id, PROVISIONING, Some(Some(c)), None, n);
    var (w1, attached) := Write(w, id, PROVISIONING, Some(Some(c)), None);
    var (w', outcome) := Attach(w, id, c);
    if attached {
      MarkStartingEnds(w1, id, c, n);
      Continues(w, w1, w', outcome, id, n);
    } else {
      PreStartIsCompensated(w1, id, c, n);
      FailsHere(w, w1, w', id, n);
    }
  }

  lemma CreateOnce(w: World, id: string)
    requires Bare(w, id) && w.runs[id].status != CREATED
    ensures var (w', ok) := Create(w, id);
            && Once(w, w', ok, id, w.nextConfig) && !IsDelete(w, w') && !IsEvidence(w, w') && w'.runs == w.runs
            && (ok ==> Owns(w', id, w.nextConfig) && w.nextConfig !in w'.servers)
  {
  }

  lemma ConfigureEnds(w: World, id: string)
    requires Bare(w, id) && w.runs[id].status != CREATED
    ensures var (w', outcome) := Configure(w, id); Ends(w, w', outcome, id, w.nextConfig)
  {
    var n := w.nextConfig;
    CreateOnce(w, id);
    var (w1, made) := Create(w, id);
    var (w', outcome) := Configure(w, id);
    if made {
      AttachEnds(w1, id, n, n);
      Continues(w, w1, w', outcome, id, n);
    } else {
      PersistThenNote(w1, id, FAILED_PROVISION, None, ConfigCreateFailed, n);
      FailsHere(w, w1, w', id, n);
    }
  }

  lemma ProvisionOnce(w: World, id: string, n: nat)
    requires Safe(w) && Fresh(w)
    ensures var (w', ok) := Perform(w, Provision(id), true, w);
            && Once(w, w', ok, id, n) && !IsDelete(w, w') && !IsEvidence(w, w') && w'.runs == w.runs
            && w'.configs == w.configs && w'.servers == w.servers && w'.nextConfig == w.nextConfig
  {
  }

  lemma PrepareEnds(w: World, id: string)
    requires Bare(w, id) && w.runs[id].status != CREATED
    ensures var (w', outcome) := Prepare(w, id); Ends(w, w', outcome, id, w.nextConfig)
  {
    var n := w.nextConfig;
    ProvisionOnce(w, id, n);
    var (w1, prepared) := Perform(w, Provision(id), true, w);
    var (w', outcome) := Prepare(w, id);
    if prepared {
      ConfigureEnds(w1, id);
      Continues(w, w1, w', outcome, id, n);
    } else {
      PersistThenNote(w1, id, FAILED_PROVISION, None, PaperWorkspaceInitFailed, n);
      FailsHere(w, w1, w', id, n);
    }
  }

  lemma MarkProvisioningEnds(w: World, id: string)
    requires Bare(w, id)
    ensures var (w', outcome) := MarkProvisioning(w, id); Ends(w, w', outcome, id, w.nextConfig)
  {
    var n := w.nextConfig;
    WriteOnce(w, id, PROVISIONING, None, None, n);
    var (w1, marked) := Write(w, id, PROVISIONING, None, None);
    var (w', outcome) := MarkProvisioning(w, id);
    if marked {
      PrepareEnds(w1, id);
      Continues(w, w1, w', outcome, id, n);
    } else {
      FailsHere(w, w1, w', id, n);
    }
  }

  lemma ReadOnce(w: World, id: string, n: nat)
    requires Safe(w) && Fresh(w)
    ensures var (w', ok) := Read(w, id);
            && Once(w, w', ok, id, n) && !IsDelete(w, w') && !IsEvidence(w, w') && w'.runs == w.runs
            && w'.configs == w.configs && w'.servers == w.servers && w'.nextConfig == w.nextConfig
            && (ok ==> id in w.runs)
  {
  }

  /** Refusing to start changes nothing; any other outcome is that of the sequence. */
  lemma BeginEnds(w: World, id: string)
    requires Safe(w) && Fresh(w)
    ensures var (w', outcome) := Begin(w, id);
            && Good(w, w', id, w.nextConfig)
            && (outcome.Thrown? && !outcome.error.CallFailed? ==>
                  w'.runs == w.runs && w'.configs == w.configs && w'.servers == w.servers)
            && (outcome.Started? || outcome.error.CallFailed? ==> Ends(w, w', outcome, id, w.nextConfig))
  {
    var n := w.nextConfig;
    ReadOnce(w, id, n);
    var (w1, found) := Read(w, id);
    var (w', outcome) := Begin(w, id);
    if !found {
      FailsHere(w, w1, w', id, n);
    } else if w1.runs[id].status != CREATED || !w1.runs[id].initPaper {
      OnceIsGood(w, w1, found, id, n);
    } else {
      MarkProvisioningEnds(w1, id);
      Continues(w, w1, w', outcome, id, n);
    }
  }

  /**
   One start under any faults. After every single call a run stored as CREATED has neither a
   live config nor a running server, no run has two live configs and no running server has
   lost its config. The error thrown is that of the first call that failed, compensation
   never replaces it, a start succeeds exactly when every call but the evidence did, and
   other runs are untouched.
   */
  lemma StartIsSafe(w: World, id: string)
    requires Safe(w) && Fresh(w) && id !in w.activeStarts
    ensures var (w', outcome) := StartRun(w, id);
            && Safe(w') && Fresh(w') && w'.activeStarts == w.activeStarts
            && w.trace <= w'.trace
            && (forall i :: |w.trace| <= i < |w'.trace| ==> w'.trace[i].safe)
            && Same(w, w', id, w.nextConfig)
            && DeletedIsForgotten(|w.trace|, w', id)
            && (outcome.Thrown? && outcome.error.CallFailed? ==>
                  FirstFailure(|w.trace|, w', outcome.error.index))
            && (outcome.Started? ==>
                  && id in w'.runs && w'.runs[id].status == READY && w'.runs[id].serverId.Some?
                  && w'.runs[id].serverId.value in w'.servers
                  && (forall j :: |w.trace| <= j < |w'.trace| && !w'.trace[j].ok ==> w'.trace[j].op.AppendEvidence?))
  {
    BeginEnds(w.(activeStarts := w.activeStarts + {id}), id);
  }

  // Any number of starts

  /** Starts, new drafts, and status changes that other services make after a start. */
  datatype Action =
    | Start(id: string)
    | Draft(id: string, run: Run)
    | Report(id: string, run: Run)

  predicate Possible(w: World, a: Action) {
    match a
    case Start(_) => true
    case Draft(id, run) => id !in w.runs && run.status == CREATED && id !in w.configs.Values
    case Report(id, run) => id in w.runs && run.status != CREATED
  }

  function Act(w: World, a: Action): World {
    match a
    case Start(id) => StartRun(w, id).0
    case Draft(id, run) => w.(runs := w.runs[id := run])
    case Report(id, run) => w.(runs := w.runs[id := run])
  }

  predicate AllPossible(w: World, actions: seq<Action>)
    decreases actions
  {
    actions == [] || (Possible(w, actions[0]) && AllPossible(Act(w, actions[0]), actions[1..]))
  }

  function ActAll(w: World, actions: seq<Action>): World
    decreases actions
  {
    if actions == [] then w else ActAll(Act(w, actions[0]), actions[1..])
  }

  const Initial := World(map[], map[], {}, 0, {}, [], [])

  lemma {:induction false} SafetyIsKept(w: World, actions: seq<Action>)
    requires Safe(w) && Fresh(w) && w.activeStarts == {} && AllPossible(w, actions)
    requires forall i :: 0 <= i < |w.trace| ==> w.trace[i].safe
    ensures var w' := ActAll(w, actions);
            Safe(w') && forall i :: 0 <= i < |w'.trace| ==> w'.trace[i].safe
    decreases actions
  {
    if actions != [] {
      var w1 := Act(w, actions[0]);
      if actions[0].Start? {
        StartIsSafe(w, actions[0].id);
      } else if actions[0].Draft? {
        assert forall c :: c in w.configs ==> w.configs[c] in w.configs.Values;
      }
      SafetyIsKept(w1, actions[1..]);
    }
  }

  /** Any number of starts from the empty store, with any faults: safe after every single call. */
  lemma RunsAreAlwaysSafe(faults: seq<Fault>, actions: seq<Action>)
    requires AllPossible(Initial.(faults := faults), actions)
    ensures var w' := ActAll(Initial.(faults := faults), actions);
            Safe(w') && forall i :: 0 <= i < |w'.trace| ==> w'.trace[i].safe
  {
    SafetyIsKept(Initial.(faults := faults), actions);
  }

  /** While a run is being started, a second start of it is refused and changes nothing. */
  lemma SecondStartIsRefused(w: World, id: string)
    requires id in w.activeStarts
    ensures StartRun(w, id) == (w, Thrown(AlreadyStarting))
  {
  }

  // Compensation that succeeds undoes everything

  function OkThen(k: nat, f: Fault): (r: seq<Fault>)
    ensures |r| == k + 1 && r[0] == if k == 0 then f else NoFault
  {
    if k == 0 then [f] else [NoFault] + OkThen(k - 1, f)
  }

  lemma NextIsOk(k: nat, f: Fault)
    requires k > 0
    ensures OkThen(k, f)[1..] == OkThen(k - 1, f)
  {
  }

  /** The run as it was drafted: stored CREATED, without server or failure. */
  function Redrafted(w: World, id: string): map<string, Run>
    requires id in w.runs
  {
    w.runs[id := w.runs[id].(status := CREATED, serverId := None, failureCode := None)]
  }

  lemma PreStartUndone(w: World, id: string, c: nat)
    requires w.faults == [] && id in w.runs && c in w.configs
    ensures var w' := CompensatePreStart(w, id, c);
            w'.runs == Redrafted(w, id) && w'.configs == w.configs - {c} && w'.servers == w.servers
  {
  }

  lemma ReadyUndone(w: World, id: string, c: nat)
    requires w.faults == [] && id in w.runs && c in w.configs
    ensures var w' := CompensateReady(w, id, c);
            w'.runs == Redrafted(w, id) && w'.configs == w.configs - {c} && w'.servers == w.servers - {c}
  {
  }

  /** What the rest of the sequence leaves behind when its call number `k` is the only one to fail. */
  ghost predicate Undone(w: World, result: (World, Outcome), id: string, k: nat)
    requires id in w.runs
  {
    && result.1 == Thrown(CallFailed(|w.trace| + k))
    && result.0.runs == Redrafted(w, id) && result.0.servers == w.servers
  }

  /** A write that succeeds: one fault fewer to come, and the draft it started from unchanged. */
  lemma WriteSucceeds(w: World, id: string, status: Status, serverId: Option<Option<nat>>, k: nat, f: Fault)
    requires k > 0 && w.faults == OkThen(k, f) && id in w.runs
    ensures var (w', ok) := Write(w, id, status, serverId, None);
            && ok && w'.faults == OkThen(k - 1, f) && |w'.trace| == |w.trace| + 1
            && w'.configs == w.configs && w'.servers == w.servers && w'.nextConfig == w.nextConfig
            && id in w'.runs && Redrafted(w', id) == Redrafted(w, id)
  {
    NextIsOk(k, f);
  }

  lemma WriteFailsLast(w: World, id: string, status: Status, serverId: Option<Option<nat>>, f: Fault)
    requires w.faults == OkThen(0, f) && f != NoFault && id in w.runs
    ensures var (w', ok) := Write(w, id, status, serverId, None);
            && !ok && w'.faults == [] && |w'.trace| == |w.trace| + 1
            && w'.configs == w.configs && w'.servers == w.servers
            && id in w'.runs && Redrafted(w', id) == Redrafted(w, id)
  {
  }

  lemma LaunchUndone(w: World, id: string, c: nat, f: Fault)
    requires w.faults == OkThen(1, f) && f != NoFault && id in w.runs && c in w.configs && c !in w.servers
    ensures Undone(w, Launch(w, id, c), id, 1) && Launch(w, id, c).0.configs == w.configs - {c}
  {
    NextIsOk(1, f);
    var (w1, launched) := Boot(w, c);
    var (w2, marked) := Write(w1, id, READY, Some(Some(c)), None);
    assert launched && !marked && w2.faults == [];
    ReadyUndone(w2, id, c);
    assert w.servers + {c} - {c} == w.servers;
  }

  lemma MarkStartingUndone(w: World, id: string, c: nat, k: nat, f: Fault)
    requires k == 0 || k == 2
    requires w.faults == OkThen(k, f) && f != NoFault && id in w.runs && c in w.configs && c !in w.servers
    ensures Undone(w, MarkStarting(w, id, c), id, k) && MarkStarting(w, id, c).0.configs == w.configs - {c}
  {
    var (w1, marked) := Write(w, id, STARTING, Some(Some(c)), None);
    if k == 0 {
      WriteFailsLast(w, id, STARTING, Some(Some(c)), f);
      PreStartUndone(w1, id, c);
    } else {
      WriteSucceeds(w, id, STARTING, Some(Some(c)), k, f);
      LaunchUndone(w1, id, c, f);
    }
  }

  lemma AttachUndone(w: World, id: string, c: nat, k: nat, f: Fault)
    requires k == 0 || k == 1 || k == 3
    requires w.faults == OkThen(k, f) && f != NoFault && id in w.runs && c in w.configs && c !in w.servers
    ensures Undone(w, Attach(w, id, c), id, k) && Attach(w, id, c).0.configs == w.configs - {c}
  {
    var (w1, attached) := Write(w, id, PROVISIONING, Some(Some(c)), None);
    if k == 0 {
      WriteFailsLast(w, id, PROVISIONING, Some(Some(c)), f);
      PreStartUndone(w1, id, c);
    } else {
      WriteSucceeds(w, id, PROVISIONING, Some(Some(c)), k, f);
      MarkStartingUndone(w1, id, c, k - 1, f);
    }
  }

  lemma ConfigureUndone(w: World, id: string, k: nat, f: Fault)
    requires Fresh(w) && id in w.runs && (k == 1 || k == 2 || k == 4)
    requires w.faults == OkThen(k, f) && f != NoFault
    ensures Undone(w, Configure(w, id), id, k) && Configure(w, id).0.configs == w.configs
  {
    var c := w.nextConfig;
    CreateSucceeds(w, id, k, f);
    AttachUndone(Create(w, id).0, id, c, k - 1, f);
    UndoneEarlier(w, Create(w, id).0, Configure(w, id), id, k);
    assert w.configs[c := id] - {c} == w.configs;
  }

  lemma UndoneEarlier(w: World, w1: World, result: (World, Outcome), id: string, k: nat)
    requires k > 0 && id in w.runs && w1.runs == w.runs && w1.servers == w.servers
    requires |w1.trace| == |w.trace| + 1 && Undone(w1, result, id, k - 1)
    ensures Undone(w, result, id, k)
  {
  }

  lemma CreateSucceeds(w: World, id: string, k: nat, f: Fault)
    requires k > 0 && w.faults == OkThen(k, f)
    ensures var w1 := Create(w, id).0;
            && w1.faults == OkThen(k - 1, f) && |w1.trace| == |w.trace| + 1 && w1.runs == w.runs
            && w1.configs == w.configs[w.nextConfig := id] && w1.servers == w.servers
            && Configure(w, id) == Attach(w1, id, w.nextConfig)
  {
    NextIsOk(k, f);
  }

  lemma PrepareUndone(w: World, id: string, k: nat, f: Fault)
    requires Fresh(w) && id in w.runs && (k == 2 || k == 3 || k == 5)
    requires w.faults == OkThen(k, f) && f != NoFault
    ensures Undone(w, Prepare(w, id), id, k) && Prepare(w, id).0.configs == w.configs
  {
    var (w1, prepared) := Perform(w, Provision(id), true, w);
    NextIsOk(k, f);
    ConfigureUndone(w1, id, k - 1, f);
  }

  lemma MarkProvisioningUndone(w: World, id: string, k: nat, f: Fault)
    requires Fresh(w) && id in w.runs && (k == 3 || k == 4 || k == 6)
    requires w.faults == OkThen(k, f) && f != NoFault
    ensures Undone(w, MarkProvisioning(w, id), id, k) && MarkProvisioning(w, id).0.configs == w.configs
  {
    var (w1, marked) := Write(w, id, PROVISIONING, None, None);
    WriteSucceeds(w, id, PROVISIONING, None, k, f);
    PrepareUndone(w1, id, k - 1, f);
  }

  lemma BeginUndone(w: World, id: string, k: nat, f: Fault)
    requires Fresh(w) && id in w.runs && (k == 4 || k == 5 || k == 7)
    requires w.runs[id].status == CREATED && w.runs[id].initPaper
    requires w.faults == OkThen(k, f) && f != NoFault
    ensures Undone(w, Begin(w, id), id, k) && Begin(w, id).0.configs == w.configs
  {
    var (w1, found) := Read(w, id);
    NextIsOk(k, f);
    MarkProvisioningUndone(w1, id, k - 1, f);
  }

  lemma RedraftedDraft(w: World, id: string)
    requires id in w.runs && w.runs[id] == Run(true, CREATED, None, None)
    ensures Redrafted(w, id) == w.runs
  {
  }

  /**
   If attaching the server, recording STARTING or recording READY fails (calls 4, 5 and 7) and
   everything else works, the start throws that failure and leaves the stored runs, the live
   configs and the running servers exactly as they were.
   */
  lemma FailedBookkeepingIsUndone(w: World, id: string, k: nat, f: Fault)
    requires Fresh(w) && id !in w.activeStarts && id in w.runs
    requires w.runs[id] == Run(true, CREATED, None, None)
    requires k == 4 || k == 5 || k == 7
    requires w.faults == OkThen(k, f) && f != NoFault
    ensures var (w', outcome) := StartRun(w, id);
            && outcome == Thrown(CallFailed(|w.trace| + k))
            && w'.runs == w.runs && w'.configs == w.configs && w'.servers == w.servers
  {
    var w0 := w.(activeStarts := w.activeStarts + {id});
    BeginUndone(w0, id, k, f);
    RedraftedDraft(w0, id);
    StartIsBegin(w, id);
  }

  lemma StartIsBegin(w: World, id: string)
    requires id !in w.activeStarts
    ensures var (w', outcome) := Begin(w.(activeStarts := w.activeStarts + {id}), id);
            StartRun(w, id) == (w'.(activeStarts := w'.activeStarts - {id}), outcome)
  {
  }
}
