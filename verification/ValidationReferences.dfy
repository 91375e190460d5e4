/**
 When a start leaves its run referring to a config that it has deleted, for every pattern of
 failing calls. A delete may throw although it took effect, and then compensation does not know.
 */
module ValidationReferences {
  import opened Collections
  import opened ValidationSaga
  import opened ValidationSagaProofs

  /** The fault of the call that comes after `i` others. */
  function FaultAt(faults: seq<Fault>, i: nat): Fault {
    if i < |faults| then faults[i] else NoFault
  }

  predicate Refers(w: World, id: string, c: nat) {
    id in w.runs && w.runs[id].serverId == Some(c)
  }

  /** The stored run refers to config `c`, which was made and is gone. */
  predicate Dangles(w: World, id: string, c: nat) {
    Refers(w, id, c) && c !in w.configs && c < w.nextConfig
  }

  /**
   Compensation from call `k` on: persist the failure (k), delete (k + 1), then either put back
   (k + 2) and keep the failure without a server (k + 3), or persist the failure again (k + 2).
   `named`: the run refers to the config before or because of the first write.
   */
  predicate DeleteFaults(faults: seq<Fault>, k: nat, named: bool) {
    || (FaultAt(faults, k) == NoFault && named
        && FaultAt(faults, k + 1) == FailsBefore && FaultAt(faults, k + 2) == FailsBefore)
    || (FaultAt(faults, k) == FailsAfter && (named || FaultAt(faults, k + 1) != FailsBefore))
  }

  predicate PreStartFaults(faults: seq<Fault>, k: nat, before: bool) {
    DeleteFaults(faults, k + 1, before || FaultAt(faults, k) != FailsBefore)
  }

  /** With a stop at call k + 1, without which nothing is deleted. */
  predicate ReadyFaults(faults: seq<Fault>, k: nat, before: bool) {
    FaultAt(faults, k + 1) == NoFault && DeleteFaults(faults, k + 2, before || FaultAt(faults, k) != FailsBefore)
  }

  predicate Clean(faults: seq<Fault>, n: nat) {
    forall i :: 0 <= i < n ==> FaultAt(faults, i) == NoFault
  }

  /**
   The start from its first call: reading, PROVISIONING, workspace and config (0 to 3) work, and
   then attaching (4), STARTING (5) or READY (7) is the first call to fail.
   */
  predicate StartFaults(faults: seq<Fault>, before: bool) {
    || (Clean(faults, 4) && FaultAt(faults, 4) != NoFault
        && PreStartFaults(faults, 5, before || FaultAt(faults, 4) == FailsAfter))
    || (Clean(faults, 5) && FaultAt(faults, 5) != NoFault && PreStartFaults(faults, 6, true))
    || (Clean(faults, 7) && FaultAt(faults, 7) != NoFault && ReadyFaults(faults, 8, true))
  }

  // Compensation

  lemma PutBackRefers(w: World, id: string, c: nat, status: Status, code: FailureCode)
    requires id in w.runs
    ensures var w' := Uncreate(w, id, status, code);
            && w'.configs == w.configs && w'.nextConfig == w.nextConfig
            && (Refers(w', id, c) <==>
                  Refers(w, id, c) && FaultAt(w.faults, 0) == FailsBefore && FaultAt(w.faults, 1) == FailsBefore)
  {
    var (w1, rolledBack) := RollbackToCreated(w, id);
    WriteRefers(w, id, c, CREATED, None, Some(None));
    if !rolledBack {
      WriteRefers(w1, id, c, status, None, Some(Some(code)));
    }
  }

  /** A write that takes effect decides what the run refers to. */
  lemma WriteRefers(w: World, id: string, c: nat, status: Status, serverId: Option<nat>, code: Option<Option<FailureCode>>)
    requires id in w.runs
    ensures var (w', ok) := Write(w, id, status, Some(serverId), code);
            && id in w'.runs && w'.configs == w.configs && w'.nextConfig == w.nextConfig
            && (ok <==> FaultAt(w.faults, 0) == NoFault) && FaultAt(w'.faults, 0) == FaultAt(w.faults, 1)
            && (Refers(w', id, c) <==> if FaultAt(w.faults, 0) == FailsBefore then Refers(w, id, c) else serverId == Some(c))
  {
  }

  lemma KeptRefers(w: World, id: string, c: nat, persisted: bool, status: Status, code: FailureCode)
    requires id in w.runs
    ensures var w' := Evidence(if persisted then w else PersistFailure(w, id, status, Some(c), code).0, id);
            && w'.configs == w.configs && w'.nextConfig == w.nextConfig
            && (Refers(w', id, c) <==> Refers(w, id, c) || (!persisted && FaultAt(w.faults, 0) != FailsBefore))
  {
  }

  /** What the compensation leaves from the delete on. */
  function FromDelete(w: World, id: string, c: nat, persisted: bool, status: Status, code: FailureCode): World {
    var (w1, deleted) := Delete(w, c);
    if deleted then Uncreate(w1, id, status, code)
    else Evidence(if persisted then w1 else PersistFailure(w1, id, status, Some(c), code).0, id)
  }

  lemma FromDeleteDangles(w: World, id: string, c: nat, persisted: bool, status: Status, code: FailureCode)
    requires id in w.runs && c in w.configs && c < w.nextConfig && (persisted ==> Refers(w, id, c))
    ensures Dangles(FromDelete(w, id, c, persisted, status, code), id, c) <==>
            DeleteFaults(w.faults, 0, Refers(w, id, c))
  {
    var (w1, deleted) := Delete(w, c);
    if deleted {
      PutBackRefers(w1, id, c, status, code);
    } else {
      KeptRefers(w1, id, c, persisted, status, code);
    }
  }

  lemma DeleteFaultsShift(faults: seq<Fault>, rest: seq<Fault>, k: nat, named: bool)
    requires rest == if faults == [] then [] else faults[1..]
    ensures DeleteFaults(rest, k, named) == DeleteFaults(faults, k + 1, named)
    ensures forall i: nat :: FaultAt(rest, i) == FaultAt(faults, i + 1)
  {
  }

  /** The compensation before the server starts, for all faults. */
  lemma PreStartDanglesIff(w: World, id: string, c: nat)
    requires id in w.runs && c in w.configs && c < w.nextConfig
    ensures Dangles(CompensatePreStart(w, id, c), id, c) <==> PreStartFaults(w.faults, 0, Refers(w, id, c))
  {
    var (w1, persisted) := PersistFailure(w, id, FAILED_PROVISION, Some(c), BookkeepingFailed);
    FromDeleteDangles(w1, id, c, persisted, FAILED_PROVISION, BookkeepingFailed);
    DeleteFaultsShift(w.faults, w1.faults, 0, Refers(w1, id, c));
    assert CompensatePreStart(w, id, c) == FromDelete(w1, id, c, persisted, FAILED_PROVISION, BookkeepingFailed);
  }

  /** The compensation after the server started, for all faults. */
  lemma ReadyDanglesIff(w: World, id: string, c: nat)
    requires id in w.runs && c in w.configs && c < w.nextConfig
    ensures Dangles(CompensateReady(w, id, c), id, c) <==> ReadyFaults(w.faults, 0, Refers(w, id, c))
  {
    var (w1, persisted) := PersistFailure(w, id, FAILED_STARTUP, Some(c), ReadyPersistFailed);
    var (w2, stopped) := Stop(w1, c);
    var named := Refers(w1, id, c);
    DeleteFaultsShift(w.faults, w1.faults, 1, named);
    DeleteFaultsShift(w1.faults, w2.faults, 0, named);
    if stopped {
      FromDeleteDangles(w2, id, c, persisted, FAILED_STARTUP, ReadyPersistFailed);
      assert CompensateReady(w, id, c) == FromDelete(w2, id, c, persisted, FAILED_STARTUP, ReadyPersistFailed);
    } else {
      KeptRefers(w2, id, c, persisted, FAILED_STARTUP, ReadyPersistFailed);
    }
  }

  // The start sequence, from its last stage to its first

  lemma PreStartFaultsShift(faults: seq<Fault>, rest: seq<Fault>, k: nat, before: bool)
    requires rest == if faults == [] then [] else faults[1..]
    ensures PreStartFaults(rest, k, before) == PreStartFaults(faults, k + 1, before)
    ensures ReadyFaults(rest, k, before) == ReadyFaults(faults, k + 1, before)
    ensures forall i: nat :: FaultAt(rest, i) == FaultAt(faults, i + 1)
  {
    forall i: nat, named: bool
      ensures DeleteFaults(rest, i, named) == DeleteFaults(faults, i + 1, named)
    {
      DeleteFaultsShift(faults, rest, i, named);
    }
  }

  lemma MarkReadyDangles(w: World, id: string, c: nat)
    requires c in w.configs && c < w.nextConfig && Refers(w, id, c)
    ensures Dangles(MarkReady(w, id, c).0, id, c) <==>
            FaultAt(w.faults, 0) != NoFault && ReadyFaults(w.faults, 1, true)
  {
    var (w1, marked) := Write(w, id, READY, Some(Some(c)), None);
    PreStartFaultsShift(w.faults, w1.faults, 0, true);
    if !marked {
      ReadyDanglesIff(w1, id, c);
    }
  }

  lemma LaunchDangles(w: World, id: string, c: nat)
    requires c in w.configs && c < w.nextConfig && Refers(w, id, c)
    ensures Dangles(Launch(w, id, c).0, id, c) <==>
            FaultAt(w.faults, 0) == NoFault && FaultAt(w.faults, 1) != NoFault && ReadyFaults(w.faults, 2, true)
  {
    var (w1, launched) := Boot(w, c);
    PreStartFaultsShift(w.faults, w1.faults, 1, true);
    if launched {
      MarkReadyDangles(w1, id, c);
    }
  }

  lemma MarkStartingDangles(w: World, id: string, c: nat)
    requires c in w.configs && c < w.nextConfig && Refers(w, id, c)
    ensures Dangles(MarkStarting(w, id, c).0, id, c) <==>
            if FaultAt(w.faults, 0) != NoFault then PreStartFaults(w.faults, 1, true)
            else FaultAt(w.faults, 1) == NoFault && FaultAt(w.faults, 2) != NoFault && ReadyFaults(w.faults, 3, true)
  {
    var (w1, marked) := Write(w, id, STARTING, Some(Some(c)), None);
    PreStartFaultsShift(w.faults, w1.faults, 0, true);
    PreStartFaultsShift(w.faults, w1.faults, 2, true);
    if marked {
      LaunchDangles(w1, id, c);
    } else {
      PreStartDanglesIff(w1, id, c);
    }
  }

  /** From attaching on, which is call `k` of the faults. */
  predicate AttachFaults(faults: seq<Fault>, k: nat, before: bool) {
    if FaultAt(faults, k) != NoFault then PreStartFaults(faults, k + 1, before || FaultAt(faults, k) == FailsAfter)
    else if FaultAt(faults, k + 1) != NoFault then PreStartFaults(faults, k + 2, true)
    else FaultAt(faults, k + 2) == NoFault && FaultAt(faults, k + 3) != NoFault && ReadyFaults(faults, k + 4, true)
  }

  lemma AttachDangles(w: World, id: string, c: nat)
    requires id in w.runs && c in w.configs && c < w.nextConfig
    ensures Dangles(Attach(w, id, c).0, id, c) <==> AttachFaults(w.faults, 0, Refers(w, id, c))
  {
    var (w1, attached) := Write(w, id, PROVISIONING, Some(Some(c)), None);
    PreStartFaultsShift(w.faults, w1.faults, 0, Refers(w1, id, c));
    PreStartFaultsShift(w.faults, w1.faults, 1, true);
    PreStartFaultsShift(w.faults, w1.faults, 3, true);
    if attached {
      MarkStartingDangles(w1, id, c);
    } else {
      PreStartDanglesIff(w1, id, c);
    }
  }

  lemma AttachFaultsShift(faults: seq<Fault>, rest: seq<Fault>, k: nat, before: bool)
    requires rest == if faults == [] then [] else faults[1..]
    ensures AttachFaults(rest, k, before) == AttachFaults(faults, k + 1, before)
    ensures FaultAt(rest, k) == FaultAt(faults, k + 1)
  {
    PreStartFaultsShift(faults, rest, k + 1, before || FaultAt(rest, k) == FailsAfter);
    PreStartFaultsShift(faults, rest, k + 2, true);
    PreStartFaultsShift(faults, rest, k + 4, true);
  }

  lemma ConfigureDangles(w: World, id: string)
    requires id in w.runs && Fresh(w)
    ensures Dangles(Configure(w, id).0, id, w.nextConfig) <==>
            FaultAt(w.faults, 0) == NoFault && AttachFaults(w.faults, 1, Refers(w, id, w.nextConfig))
  {
    var c := w.nextConfig;
    var (w1, made) := Create(w, id);
    AttachFaultsShift(w.faults, w1.faults, 0, Refers(w, id, c));
    if made {
      AttachDangles(w1, id, c);
    }
  }

  lemma PrepareDangles(w: World, id: string)
    requires id in w.runs && Fresh(w)
    ensures Dangles(Prepare(w, id).0, id, w.nextConfig) <==>
            && FaultAt(w.faults, 0) == NoFault && FaultAt(w.faults, 1) == NoFault
            && AttachFaults(w.faults, 2, Refers(w, id, w.nextConfig))
  {
    var (w1, prepared) := Perform(w, Provision(id), true, w);
    AttachFaultsShift(w.faults, w1.faults, 1, Refers(w, id, w.nextConfig));
    if prepared {
      ConfigureDangles(w1, id);
    }
  }

  lemma MarkProvisioningDangles(w: World, id: string)
    requires id in w.runs && Fresh(w)
    ensures Dangles(MarkProvisioning(w, id).0, id, w.nextConfig) <==>
            && FaultAt(w.faults, 0) == NoFault && FaultAt(w.faults, 1) == NoFault && FaultAt(w.faults, 2) == NoFault
            && AttachFaults(w.faults, 3, Refers(w, id, w.nextConfig))
  {
    var w1 := Write(w, id, PROVISIONING, None, None).0;
    MarkedProvisioning(w, id);
    AttachFaultsShift(w.faults, w1.faults, 0, false);
    AttachFaultsShift(w.faults, w1.faults, 1, false);
    AttachFaultsShift(w.faults, w1.faults, 2, Refers(w, id, w.nextConfig));
    if FaultAt(w.faults, 0) == NoFault {
      PrepareDangles(w1, id);
    }
  }

  /** Marking PROVISIONING keeps what the run refers to; if it fails the start is over. */
  lemma MarkedProvisioning(w: World, id: string)
    requires id in w.runs && Fresh(w)
    ensures var w1 := Write(w, id, PROVISIONING, None, None).0;
            && id in w1.runs && Fresh(w1) && w1.nextConfig == w.nextConfig
            && w1.faults == (if w.faults == [] then [] else w.faults[1..])
            && (Refers(w1, id, w.nextConfig) <==> Refers(w, id, w.nextConfig))
            && (if FaultAt(w.faults, 0) == NoFault then MarkProvisioning(w, id) == Prepare(w1, id)
                else !Dangles(MarkProvisioning(w, id).0, id, w.nextConfig))
  {
  }

  lemma BeginDangles(w: World, id: string)
    requires id in w.runs && Fresh(w)
    ensures Dangles(Begin(w, id).0, id, w.nextConfig) <==>
            && w.runs[id].status == CREATED && w.runs[id].initPaper
            && Clean(w.faults, 4) && AttachFaults(w.faults, 4, Refers(w, id, w.nextConfig))
  {
    var w1 := Read(w, id).0;
    ReadPasses(w, id);
    AttachFaultsShift(w.faults, w1.faults, 0, false);
    AttachFaultsShift(w.faults, w1.faults, 1, false);
    AttachFaultsShift(w.faults, w1.faults, 2, false);
    AttachFaultsShift(w.faults, w1.faults, 3, Refers(w, id, w.nextConfig));
    CleanOfFour(w.faults);
    if FaultAt(w.faults, 0) == NoFault && w.runs[id].status == CREATED && w.runs[id].initPaper {
      MarkProvisioningDangles(w1, id);
    }
  }

  lemma ReadPasses(w: World, id: string)
    requires id in w.runs && Fresh(w)
    ensures var w1 := Read(w, id).0;
            && w1.runs == w.runs && Fresh(w1) && w1.nextConfig == w.nextConfig
            && w1.faults == (if w.faults == [] then [] else w.faults[1..])
            && (if FaultAt(w.faults, 0) == NoFault && w.runs[id].status == CREATED && w.runs[id].initPaper
                then Begin(w, id) == MarkProvisioning(w1, id)
                else !Dangles(Begin(w, id).0, id, w.nextConfig))
  {
  }

  lemma CleanOfFour(f: seq<Fault>)
    ensures Clean(f, 4) <==> FaultAt(f, 0) == FaultAt(f, 1) == FaultAt(f, 2) == FaultAt(f, 3) == NoFault
  {
  }

  lemma StartFaultsAre(f: seq<Fault>, before: bool)
    ensures StartFaults(f, before) <==> Clean(f, 4) && AttachFaults(f, 4, before)
  {
    assert Clean(f, 5) <==> Clean(f, 4) && FaultAt(f, 4) == NoFault;
    assert Clean(f, 7) <==> Clean(f, 5) && FaultAt(f, 5) == NoFault && FaultAt(f, 6) == NoFault;
  }

  /**
   For every world, run and pattern of failing calls: a start leaves its run referring to the
   config that it made and deleted if and only if it was started from CREATED and its calls
   fail in one of the listed ways.
   */
  lemma StartDanglesIff(w: World, id: string)
    requires Fresh(w) && id in w.runs
    ensures Dangles(StartRun(w, id).0, id, w.nextConfig) <==>
            && id !in w.activeStarts && w.runs[id].status == CREATED && w.runs[id].initPaper
            && StartFaults(w.faults, Refers(w, id, w.nextConfig))
  {
    if id !in w.activeStarts {
      BeginDangles(w.(activeStarts := w.activeStarts + {id}), id);
      StartFaultsAre(w.faults, Refers(w, id, w.nextConfig));
    }
  }

  // A number that the run did not name before is named only when a config got it

  predicate Kept(w: World, w': World, c: nat) {
    w'.nextConfig == w.nextConfig && (w'.configs == w.configs || w'.configs == w.configs - {c})
  }

  predicate SameConfigs(w: World, w': World) {
    w'.nextConfig == w.nextConfig && w'.configs == w.configs
  }

  lemma WriteKeeps(w: World, id: string, status: Status, serverId: Option<Option<nat>>, code: Option<Option<FailureCode>>)
    ensures SameConfigs(w, Write(w, id, status, serverId, code).0)
  {
  }

  lemma EvidenceKeeps(w: World, id: string)
    ensures SameConfigs(w, Evidence(w, id))
  {
  }

  lemma UncreateKeeps(w: World, id: string, status: Status, code: FailureCode)
    ensures SameConfigs(w, Uncreate(w, id, status, code))
  {
    var w1 := RollbackToCreated(w, id).0;
    var w2 := PersistFailure(w1, id, status, None, code).0;
    WriteKeeps(w, id, CREATED, Some(None), Some(None));
    WriteKeeps(w1, id, status, Some(None), Some(Some(code)));
    EvidenceKeeps(w2, id);
  }

  lemma FromDeleteKeeps(w: World, id: string, c: nat, persisted: bool, status: Status, code: FailureCode)
    ensures Kept(w, FromDelete(w, id, c, persisted, status, code), c)
  {
    var w1 := Delete(w, c).0;
    UncreateKeeps(w1, id, status, code);
    FailureKeeps(w1, id, c, persisted, status, code);
  }

  lemma FailureKeeps(w: World, id: string, c: nat, persisted: bool, status: Status, code: FailureCode)
    ensures SameConfigs(w, Evidence(if persisted then w else PersistFailure(w, id, status, Some(c), code).0, id))
  {
    WriteKeeps(w, id, status, Some(Some(c)), Some(Some(code)));
    EvidenceKeeps(if persisted then w else PersistFailure(w, id, status, Some(c), code).0, id);
  }

  lemma PreStartKeeps(w: World, id: string, c: nat)
    ensures Kept(w, CompensatePreStart(w, id, c), c)
  {
    var (w1, persisted) := PersistFailure(w, id, FAILED_PROVISION, Some(c), BookkeepingFailed);
    WriteKeeps(w, id, FAILED_PROVISION, Some(Some(c)), Some(Some(BookkeepingFailed)));
    FromDeleteKeeps(w1, id, c, persisted, FAILED_PROVISION, BookkeepingFailed);
  }

  lemma ReadyKeeps(w: World, id: string, c: nat)
    ensures Kept(w, CompensateReady(w, id, c), c)
  {
    var (w1, persisted) := PersistFailure(w, id, FAILED_STARTUP, Some(c), ReadyPersistFailed);
    WriteKeeps(w, id, FAILED_STARTUP, Some(Some(c)), Some(Some(ReadyPersistFailed)));
    var w2 := Stop(w1, c).0;
    FromDeleteKeeps(w2, id, c, persisted, FAILED_STARTUP, ReadyPersistFailed);
    FailureKeeps(w2, id, c, persisted, FAILED_STARTUP, ReadyPersistFailed);
  }

  lemma LaunchKeeps(w: World, id: string, c: nat)
    ensures Kept(w, Launch(w, id, c).0, c)
  {
    var w1 := Boot(w, c).0;
    var w2 := Write(w1, id, READY, Some(Some(c)), None).0;
    FailureKeeps(w1, id, c, false, FAILED_STARTUP, ServerStartFailed);
    WriteKeeps(w1, id, READY, Some(Some(c)), None);
    EvidenceKeeps(w2, id);
    ReadyKeeps(w2, id, c);
  }

  lemma AttachKeeps(w: World, id: string, c: nat)
    ensures Kept(w, Attach(w, id, c).0, c)
  {
    var w1 := Write(w, id, PROVISIONING, Some(Some(c)), None).0;
    var w2 := Write(w1, id, STARTING, Some(Some(c)), None).0;
    WriteKeeps(w, id, PROVISIONING, Some(Some(c)), None);
    WriteKeeps(w1, id, STARTING, Some(Some(c)), None);
    PreStartKeeps(w1, id, c);
    PreStartKeeps(w2, id, c);
    LaunchKeeps(w2, id, c);
  }

  /** If the run refers to number `n` then a config with that number was made, for this run. */
  predicate NamesMade(w: World, id: string, n: nat) {
    Refers(w, id, n) ==> n < w.nextConfig && (n in w.configs ==> w.configs[n] == id)
  }

  lemma ConfigureNamesMade(w: World, id: string)
    requires !Refers(w, id, w.nextConfig)
    ensures NamesMade(Configure(w, id).0, id, w.nextConfig)
  {
    var (w1, made) := Create(w, id);
    if made {
      AttachKeeps(w1, id, w.nextConfig);
    }
  }

  lemma BeginNamesMade(w: World, id: string)
    requires !Refers(w, id, w.nextConfig)
    ensures NamesMade(Begin(w, id).0, id, w.nextConfig)
  {
    var w1 := Read(w, id).0;
    var w2 := Write(w1, id, PROVISIONING, None, None).0;
    var w3 := Perform(w2, Provision(id), true, w2).0;
    ConfigureNamesMade(w3, id);
  }

  /** The start of a drafted run whose attach fails and whose delete throws after deleting. */
  lemma ThrowingDeleteLeavesReference(w: World, id: string)
    requires Fresh(w) && id in w.runs && id !in w.activeStarts && w.runs[id] == Run(true, CREATED, None, None)
    requires w.faults == [NoFault, NoFault, NoFault, NoFault, FailsBefore, NoFault, FailsAfter]
    ensures Dangles(StartRun(w, id).0, id, w.nextConfig)
  {
    StartDanglesIff(w, id);
  }
}
