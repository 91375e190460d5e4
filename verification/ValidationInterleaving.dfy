/**
 Starts of different runs at the same time: the start sequence cut at its calls, so that calls of
 any number of starts, new drafts and reported status changes interleave freely. Running one
 start alone to its end gives what ValidationSaga says.
 */
module ValidationInterleaving {
  import opened Collections
  import opened ValidationSaga
  import opened ValidationSagaProofs

  /** The call a start makes next, with the local variables that are still needed. */
  datatype Pc =
    | Reading
    | MarkingProvisioning
    | Provisioning
    | Creating
    | Attaching(c: nat)
    | MarkingStarting(c: nat)
    | Booting(c: nat)
    | MarkingReady(c: nat)
    | NotingStart
    | PersistingBefore(c: nat)
    | PersistingReady(c: nat)
    | Stopping(c: nat, persisted: bool)
    | Deleting(c: nat, persisted: bool, status: Status, code: FailureCode)
    | RollingBack(status: Status, code: FailureCode)
    | Persisting(status: Status, serverId: Option<nat>, code: FailureCode)
    | Noting
    | Done

  /** How many calls are left at most. */
  function Rank(pc: Pc): nat {
    match pc
    case Reading => 14
    case MarkingProvisioning => 13
    case Provisioning => 12
    case Creating => 11
    case Attaching(_) => 10
    case MarkingStarting(_) => 9
    case Booting(_) => 8
    case MarkingReady(_) => 7
    case PersistingReady(_) => 6
    case PersistingBefore(_) => 5
    case Stopping(_, _) => 5
    case Deleting(_, _, _, _) => 4
    case RollingBack(_, _) => 3
    case Persisting(_, _, _) => 2
    case Noting => 1
    case NotingStart => 1
    case Done => 0
  }

  /** The call that is made at `pc`, and whether it reports success. */
  function MakeCall(w: World, id: string, pc: Pc): (World, bool)
    requires pc != Done
  {
    match pc
    case Reading => Read(w, id)
    case MarkingProvisioning => Write(w, id, PROVISIONING, None, None)
    case Provisioning => Perform(w, Provision(id), true, w)
    case Creating => Create(w, id)
    case Attaching(c) => Write(w, id, PROVISIONING, Some(Some(c)), None)
    case MarkingStarting(c) => Write(w, id, STARTING, Some(Some(c)), None)
    case Booting(c) => Boot(w, c)
    case MarkingReady(c) => Write(w, id, READY, Some(Some(c)), None)
    case PersistingReady(c) => PersistFailure(w, id, FAILED_STARTUP, Some(c), ReadyPersistFailed)
    case PersistingBefore(c) => PersistFailure(w, id, FAILED_PROVISION, Some(c), BookkeepingFailed)
    case Stopping(c, _) => Stop(w, c)
    case Deleting(c, _, _, _) => Delete(w, c)
    case RollingBack(_, _) => RollbackToCreated(w, id)
    case Persisting(status, serverId, code) => PersistFailure(w, id, status, serverId, code)
    case Noting => (Evidence(w, id), true)
    case NotingStart => (Evidence(w, id), true)
  }

  /** When a config could not be deleted: the failure is kept, once it is stored. */
  function KeepFailing(c: nat, persisted: bool, status: Status, code: FailureCode): Pc {
    if persisted then Noting else Persisting(status, Some(c), code)
  }

  predicate Startable(r: Run) {
    r.status == CREATED && r.initPaper
  }

  /** Where the start goes after its call; `made` is the config that creating one makes, `read` the run it reads. */
  function Next(pc: Pc, ok: bool, made: nat, read: Option<Run>): (pc': Pc)
    requires pc != Done
    ensures Rank(pc') < Rank(pc)
  {
    match pc
    case Reading => if ok && read.Some? && Startable(read.value) then MarkingProvisioning else Done
    case MarkingProvisioning => if ok then Provisioning else Done
    case Provisioning => if ok then Creating else Persisting(FAILED_PROVISION, None, PaperWorkspaceInitFailed)
    case Creating => if ok then Attaching(made) else Persisting(FAILED_PROVISION, None, ConfigCreateFailed)
    case Attaching(c) => if ok then MarkingStarting(c) else PersistingBefore(c)
    case MarkingStarting(c) => if ok then Booting(c) else PersistingBefore(c)
    case Booting(c) => if ok then MarkingReady(c) else Persisting(FAILED_STARTUP, Some(c), ServerStartFailed)
    case MarkingReady(c) => if ok then NotingStart else PersistingReady(c)
    case PersistingReady(c) => Stopping(c, ok)
    case PersistingBefore(c) => Deleting(c, ok, FAILED_PROVISION, BookkeepingFailed)
    case Stopping(c, persisted) =>
      if ok then Deleting(c, persisted, FAILED_STARTUP, ReadyPersistFailed)
      else KeepFailing(c, persisted, FAILED_STARTUP, ReadyPersistFailed)
    case Deleting(c, persisted, status, code) =>
      if ok then RollingBack(status, code) else KeepFailing(c, persisted, status, code)
    case RollingBack(status, code) => if ok then Done else Persisting(status, None, code)
    case Persisting(_, _, _) => Noting
    case Noting => Done
    case NotingStart => Done
  }

  function RunOf(w: World, id: string): Option<Run> {
    if id in w.runs then Some(w.runs[id]) else None
  }

  /** Where the start of run `id` goes after a call made in world `w`. */
  function After(w: World, id: string, pc: Pc): (pc': Pc)
    requires pc != Done
    ensures Rank(pc') < Rank(pc)
  {
    Next(pc, MakeCall(w, id, pc).1, w.nextConfig, RunOf(w, id))
  }

  // A start alone is the saga

  /** All remaining calls of a start, one after the other. */
  function Alone(w: World, id: string, pc: Pc): World
    decreases Rank(pc)
  {
    if pc == Done then w else Alone(MakeCall(w, id, pc).0, id, After(w, id, pc))
  }

  lemma AloneStep(w: World, id: string, pc: Pc)
    requires pc != Done
    ensures Alone(w, id, pc) == Alone(MakeCall(w, id, pc).0, id, After(w, id, pc))
  {
  }

  lemma AloneNoting(w: World, id: string)
    ensures Alone(w, id, Noting) == Alone(w, id, NotingStart) == Evidence(w, id)
  {
  }

  lemma AlonePersisting(w: World, id: string, status: Status, serverId: Option<nat>, code: FailureCode)
    ensures Alone(w, id, Persisting(status, serverId, code)) == Evidence(PersistFailure(w, id, status, serverId, code).0, id)
  {
    AloneNoting(PersistFailure(w, id, status, serverId, code).0, id);
  }

  lemma AloneRollingBack(w: World, id: string, status: Status, code: FailureCode)
    ensures Alone(w, id, RollingBack(status, code)) == Uncreate(w, id, status, code)
  {
    var (w1, rolledBack) := RollbackToCreated(w, id);
    AloneStep(w, id, RollingBack(status, code));
    if !rolledBack {
      AlonePersisting(w1, id, status, None, code);
    }
  }

  /** What is left to do when the config stays. */
  function Kept(w: World, id: string, c: nat, persisted: bool, status: Status, code: FailureCode): World {
    Evidence(if persisted then w else PersistFailure(w, id, status, Some(c), code).0, id)
  }

  lemma AloneKeepFailing(w: World, id: string, c: nat, persisted: bool, status: Status, code: FailureCode)
    ensures Alone(w, id, KeepFailing(c, persisted, status, code)) == Kept(w, id, c, persisted, status, code)
  {
    if persisted {
      AloneNoting(w, id);
    } else {
      AlonePersisting(w, id, status, Some(c), code);
    }
  }

  /** What is left to do once the delete has answered. */
  function Deleted(w: World, ok: bool, id: string, c: nat, persisted: bool, status: Status, code: FailureCode): World {
    if ok then Uncreate(w, id, status, code) else Kept(w, id, c, persisted, status, code)
  }

  lemma AloneDeleting(w: World, id: string, c: nat, persisted: bool, status: Status, code: FailureCode)
    ensures var (w1, ok) := Delete(w, c);
            Alone(w, id, Deleting(c, persisted, status, code)) == Deleted(w1, ok, id, c, persisted, status, code)
  {
    var (w1, ok) := Delete(w, c);
    AloneStep(w, id, Deleting(c, persisted, status, code));
    if ok {
      AloneRollingBack(w1, id, status, code);
    } else {
      AloneKeepFailing(w1, id, c, persisted, status, code);
    }
  }

  lemma AlonePersistingBefore(w: World, id: string, c: nat)
    ensures Alone(w, id, PersistingBefore(c)) == CompensatePreStart(w, id, c)
  {
    var (w1, ok) := PersistFailure(w, id, FAILED_PROVISION, Some(c), BookkeepingFailed);
    AloneStep(w, id, PersistingBefore(c));
    AloneDeleting(w1, id, c, ok, FAILED_PROVISION, BookkeepingFailed);
  }

  /** What is left to do once the stop has answered. */
  function Stopped(w: World, ok: bool, id: string, c: nat, persisted: bool): World {
    var (w1, deleted) := if ok then Delete(w, c) else (w, false);
    Deleted(w1, deleted, id, c, persisted, FAILED_STARTUP, ReadyPersistFailed)
  }

  lemma AloneStopping(w: World, id: string, c: nat, persisted: bool)
    ensures var (w1, ok) := Stop(w, c); Alone(w, id, Stopping(c, persisted)) == Stopped(w1, ok, id, c, persisted)
  {
    var (w1, ok) := Stop(w, c);
    AloneStep(w, id, Stopping(c, persisted));
    if ok {
      AloneDeleting(w1, id, c, persisted, FAILED_STARTUP, ReadyPersistFailed);
    } else {
      AloneKeepFailing(w1, id, c, persisted, FAILED_STARTUP, ReadyPersistFailed);
    }
  }

  lemma AlonePersistingReady(w: World, id: string, c: nat)
    ensures Alone(w, id, PersistingReady(c)) == CompensateReady(w, id, c)
  {
    var (w1, persisted) := PersistFailure(w, id, FAILED_STARTUP, Some(c), ReadyPersistFailed);
    AloneStep(w, id, PersistingReady(c));
    AloneStopping(w1, id, c, persisted);
  }

  lemma AloneMarkingReady(w: World, id: string, c: nat)
    ensures Alone(w, id, MarkingReady(c)) == MarkReady(w, id, c).0
  {
    var (w1, marked) := Write(w, id, READY, Some(Some(c)), None);
    AloneStep(w, id, MarkingReady(c));
    if marked {
      AloneNoting(w1, id);
    } else {
      AlonePersistingReady(w1, id, c);
    }
  }

  lemma AloneBooting(w: World, id: string, c: nat)
    ensures Alone(w, id, Booting(c)) == Launch(w, id, c).0
  {
    var (w1, launched) := Boot(w, c);
    AloneStep(w, id, Booting(c));
    if launched {
      AloneMarkingReady(w1, id, c);
    } else {
      AlonePersisting(w1, id, FAILED_STARTUP, Some(c), ServerStartFailed);
    }
  }

  lemma AloneMarkingStarting(w: World, id: string, c: nat)
    ensures Alone(w, id, MarkingStarting(c)) == MarkStarting(w, id, c).0
  {
    var (w1, marked) := Write(w, id, STARTING, Some(Some(c)), None);
    AloneStep(w, id, MarkingStarting(c));
    if marked {
      AloneBooting(w1, id, c);
    } else {
      AlonePersistingBefore(w1, id, c);
    }
  }

  lemma AloneAttaching(w: World, id: string, c: nat)
    ensures Alone(w, id, Attaching(c)) == Attach(w, id, c).0
  {
    var (w1, attached) := Write(w, id, PROVISIONING, Some(Some(c)), None);
    AloneStep(w, id, Attaching(c));
    if attached {
      AloneMarkingStarting(w1, id, c);
    } else {
      AlonePersistingBefore(w1, id, c);
    }
  }

  lemma AloneCreating(w: World, id: string)
    ensures Alone(w, id, Creating) == Configure(w, id).0
  {
    var (w1, made) := Create(w, id);
    AloneStep(w, id, Creating);
    if made {
      AloneAttaching(w1, id, w.nextConfig);
    } else {
      AlonePersisting(w1, id, FAILED_PROVISION, None, ConfigCreateFailed);
    }
  }

  lemma AloneProvisioning(w: World, id: string)
    ensures Alone(w, id, Provisioning) == Prepare(w, id).0
  {
    var (w1, prepared) := Perform(w, Provision(id), true, w);
    AloneStep(w, id, Provisioning);
    if prepared {
      AloneCreating(w1, id);
    } else {
      AlonePersisting(w1, id, FAILED_PROVISION, None, PaperWorkspaceInitFailed);
    }
  }

  lemma AloneMarkingProvisioning(w: World, id: string)
    ensures Alone(w, id, MarkingProvisioning) == MarkProvisioning(w, id).0
  {
    var (w1, marked) := Write(w, id, PROVISIONING, None, None);
    AloneStep(w, id, MarkingProvisioning);
    if marked {
      AloneProvisioning(w1, id);
    }
  }

  /** A start that runs alone to its end leaves the world that the sequence describes. */
  lemma AloneIsTheSaga(w: World, id: string)
    ensures Alone(w, id, Reading) == Begin(w, id).0
  {
    var (w1, found) := Read(w, id);
    AloneStep(w, id, Reading);
    if found && Startable(w1.runs[id]) {
      AloneMarkingProvisioning(w1, id);
    }
  }
}
