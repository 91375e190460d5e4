/**
 What a start leaves behind, in closed form: the stored row, the config, the server and the number
 of calls, given by the first call that failed and by which of the later calls took effect. The
 nested sequence of the saga does not appear in these formulas.
 */
module ValidationOutcomes {
  import opened Collections
  import opened ValidationSaga
  import opened ValidationSagaProofs
  import opened ValidationReferences
  import opened ValidationInterleaving

  /** Call number `i` of the start reports success. */
  predicate Works(f: seq<Fault>, i: nat) {
    FaultAt(f, i) == NoFault
  }

  /** Call number `i` takes effect, whatever it reports. */
  predicate Lands(f: seq<Fault>, i: nat) {
    FaultAt(f, i) != FailsBefore
  }

  /** The row of the run; whether a config was made for it, is live, and has its server running. */
  datatype Left = Left(row: Run, made: bool, live: bool, running: bool)

  function ToCome(f: seq<Fault>, made: nat): seq<Fault> {
    if made <= |f| then f[made..] else []
  }

  /** What a start of run `id` has left so far, its config having the number `w0.nextConfig`. */
  ghost predicate Leaves(w: World, w0: World, id: string, l: Left) {
    var c := w0.nextConfig;
    && id in w0.runs && c !in w0.configs && c !in w0.servers
    && w.runs == w0.runs[id := l.row]
    && w.nextConfig == (if l.made then c + 1 else c)
    && w.configs == (if l.live then w0.configs[c := id] else w0.configs)
    && w.servers == (if l.running then w0.servers + {c} else w0.servers)
  }

  /** After `i` calls of a start of `id` that began in `w0` and meets the faults `f`. */
  ghost predicate At(w: World, w0: World, id: string, f: seq<Fault>, i: nat, l: Left) {
    |w.trace| == |w0.trace| + i && w.faults == ToCome(f, i) && Leaves(w, w0, id, l)
  }

  // One call

  lemma CallAt(w: World, w0: World, id: string, f: seq<Fault>, i: nat, l: Left, op: Op, effect: World, l': Left)
    requires At(w, w0, id, f, i, l) && Leaves(effect, w0, id, l')
    ensures var (w', ok) := Perform(w, op, true, effect);
            ok == Works(f, i) && At(w', w0, id, f, i + 1, if Lands(f, i) then l' else l)
  {
  }

  /** A write of the row: what is given replaces the old, the rest stays. */
  lemma WriteAt(w: World, w0: World, id: string, f: seq<Fault>, i: nat, l: Left,
                status: Status, serverId: Option<Option<nat>>, code: Option<Option<FailureCode>>)
    requires At(w, w0, id, f, i, l)
    ensures var (w', ok) := Write(w, id, status, serverId, code);
            var row := Run(l.row.initPaper, status, if serverId.Some? then serverId.value else l.row.serverId,
                           if code.Some? then code.value else l.row.failureCode);
            ok == Works(f, i) && At(w', w0, id, f, i + 1, if Lands(f, i) then l.(row := row) else l)
  {
    var row := Run(l.row.initPaper, status, if serverId.Some? then serverId.value else l.row.serverId,
                   if code.Some? then code.value else l.row.failureCode);
    var runs := w.runs[id := Patched(w.runs[id], status, serverId, code)];
    assert w.runs[id] == l.row;
    assert runs == w0.runs[id := row];
    CallAt(w, w0, id, f, i, l, WriteRun(id, status), w.(runs := runs), l.(row := row));
  }

  lemma EvidenceAt(w: World, w0: World, id: string, f: seq<Fault>, i: nat, l: Left)
    requires At(w, w0, id, f, i, l)
    ensures At(Evidence(w, id), w0, id, f, i + 1, l)
  {
    CallAt(w, w0, id, f, i, l, AppendEvidence(id), w, l);
  }

  lemma DeleteAt(w: World, w0: World, id: string, f: seq<Fault>, i: nat, l: Left)
    requires At(w, w0, id, f, i, l)
    ensures var (w', ok) := Delete(w, w0.nextConfig);
            ok == Works(f, i) && At(w', w0, id, f, i + 1, if Lands(f, i) then l.(live := false) else l)
  {
    var c := w0.nextConfig;
    assert w.configs - {c} == w0.configs;
    CallAt(w, w0, id, f, i, l, DeleteConfig(c), w.(configs := w.configs - {c}), l.(live := false));
  }

  lemma StopAt(w: World, w0: World, id: string, f: seq<Fault>, i: nat, l: Left)
    requires At(w, w0, id, f, i, l)
    ensures var (w', ok) := Stop(w, w0.nextConfig);
            ok == Works(f, i) && At(w', w0, id, f, i + 1, if Lands(f, i) then l.(running := false) else l)
  {
    var c := w0.nextConfig;
    assert w.servers - {c} == w0.servers;
    CallAt(w, w0, id, f, i, l, StopServer(c), w.(servers := w.servers - {c}), l.(running := false));
  }

  lemma BootAt(w: World, w0: World, id: string, f: seq<Fault>, i: nat, l: Left)
    requires At(w, w0, id, f, i, l)
    ensures var (w', ok) := Boot(w, w0.nextConfig);
            ok == Works(f, i) && At(w', w0, id, f, i + 1, if Lands(f, i) then l.(running := true) else l)
  {
    var c := w0.nextConfig;
    assert w.servers + {c} == w0.servers + {c};
    CallAt(w, w0, id, f, i, l, StartServer(c), w.(servers := w.servers + {c}), l.(running := true));
  }

  lemma CreateAt(w: World, w0: World, id: string, f: seq<Fault>, i: nat, l: Left)
    requires At(w, w0, id, f, i, l) && !l.made && !l.live
    ensures var (w', ok) := Create(w, id);
            && ok == Works(f, i) && w.nextConfig == w0.nextConfig
            && At(w', w0, id, f, i + 1, if Lands(f, i) then l.(made := true, live := true) else l)
  {
    var c := w0.nextConfig;
    CallAt(w, w0, id, f, i, l, CreateConfig(id), w.(configs := w.configs[c := id], nextConfig := c + 1),
           l.(made := true, live := true));
  }

  /** What a call makes of it when it takes effect. */
  function Effect(l: Left, pc: Pc): Left {
    var paper := l.row.initPaper;
    match pc
    case MarkingProvisioning => l.(row := Run(paper, PROVISIONING, l.row.serverId, l.row.failureCode))
    case Creating => Left(l.row, true, true, l.running)
    case Attaching(c) => l.(row := Run(paper, PROVISIONING, Some(c), l.row.failureCode))
    case MarkingStarting(c) => l.(row := Run(paper, STARTING, Some(c), l.row.failureCode))
    case Booting(_) => Left(l.row, l.made, l.live, true)
    case MarkingReady(c) => l.(row := Run(paper, READY, Some(c), l.row.failureCode))
    case PersistingReady(c) => l.(row := Run(paper, FAILED_STARTUP, Some(c), Some(ReadyPersistFailed)))
    case PersistingBefore(c) => l.(row := Run(paper, FAILED_PROVISION, Some(c), Some(BookkeepingFailed)))
    case Stopping(_, _) => Left(l.row, l.made, l.live, false)
    case Deleting(_, _, _, _) => Left(l.row, l.made, false, l.running)
    case RollingBack(_, _) => l.(row := Run(paper, CREATED, None, None))
    case Persisting(status, serverId, code) => l.(row := Run(paper, status, serverId, Some(code)))
    case _ => l
  }

  /** The start speaks of config `c`, which is made by its fourth call. */
  predicate Speaks(pc: Pc, l: Left, c: nat) {
    match pc
    case Attaching(d) => d == c
    case MarkingStarting(d) => d == c
    case Booting(d) => d == c
    case MarkingReady(d) => d == c
    case PersistingReady(d) => d == c
    case PersistingBefore(d) => d == c
    case Stopping(d, _) => d == c
    case Deleting(d, _, _, _) => d == c
    case _ => Rank(pc) >= 11 ==> !l.made && !l.live
  }

  function Landed(l: Left, f: seq<Fault>, i: nat, pc: Pc): Left {
    if Lands(f, i) then Effect(l, pc) else l
  }

  /** Call `i`, made at `pc`, and where it leads. */
  ghost predicate Moves(w: World, w0: World, id: string, f: seq<Fault>, i: nat, l: Left, pc: Pc)
    requires pc != Pc.Done
  {
    && At(MakeCall(w, id, pc).0, w0, id, f, i + 1, Landed(l, f, i, pc))
    && After(w, id, pc) == Next(pc, Works(f, i), w0.nextConfig, Some(l.row))
  }

  lemma ForwardMoves(w: World, w0: World, id: string, f: seq<Fault>, i: nat, l: Left, pc: Pc)
    requires At(w, w0, id, f, i, l) && Speaks(pc, l, w0.nextConfig) && Rank(pc) >= 7
    ensures Moves(w, w0, id, f, i, l, pc)
  {
    match pc
    case Reading => CallAt(w, w0, id, f, i, l, ReadRun(id), w, l);
    case MarkingProvisioning => WriteAt(w, w0, id, f, i, l, PROVISIONING, None, None);
    case Provisioning => CallAt(w, w0, id, f, i, l, Provision(id), w, l);
    case Creating => CreateAt(w, w0, id, f, i, l);
    case Attaching(c) => WriteAt(w, w0, id, f, i, l, PROVISIONING, Some(Some(c)), None);
    case MarkingStarting(c) => WriteAt(w, w0, id, f, i, l, STARTING, Some(Some(c)), None);
    case Booting(c) => BootAt(w, w0, id, f, i, l);
    case MarkingReady(c) => WriteAt(w, w0, id, f, i, l, READY, Some(Some(c)), None);
  }

  lemma CompensatingMoves(w: World, w0: World, id: string, f: seq<Fault>, i: nat, l: Left, pc: Pc)
    requires At(w, w0, id, f, i, l) && Speaks(pc, l, w0.nextConfig) && 1 <= Rank(pc) < 7
    ensures Moves(w, w0, id, f, i, l, pc)
  {
    match pc
    case PersistingReady(c) => WriteAt(w, w0, id, f, i, l, FAILED_STARTUP, Some(Some(c)), Some(Some(ReadyPersistFailed)));
    case PersistingBefore(c) => WriteAt(w, w0, id, f, i, l, FAILED_PROVISION, Some(Some(c)), Some(Some(BookkeepingFailed)));
    case Stopping(c, _) => StopAt(w, w0, id, f, i, l);
    case Deleting(c, _, _, _) => DeleteAt(w, w0, id, f, i, l);
    case RollingBack(_, _) => WriteAt(w, w0, id, f, i, l, CREATED, Some(None), Some(None));
    case Persisting(status, serverId, code) => WriteAt(w, w0, id, f, i, l, status, Some(serverId), Some(Some(code)));
    case Noting => EvidenceAt(w, w0, id, f, i, l);
    case NotingStart => EvidenceAt(w, w0, id, f, i, l);
  }

  /** What the calls from call `i` on, at `pc`, make of `l`, and how many calls there are in all. */
  function Final(l: Left, c: nat, f: seq<Fault>, i: nat, pc: Pc): (Left, nat)
    decreases Rank(pc)
  {
    if pc == Pc.Done then (l, i)
    else Final(Landed(l, f, i, pc), c, f, i + 1, Next(pc, Works(f, i), c, Some(l.row)))
  }

  lemma {:induction false} AloneLeaves(w: World, w0: World, id: string, f: seq<Fault>, i: nat, l: Left, pc: Pc)
    requires At(w, w0, id, f, i, l) && Speaks(pc, l, w0.nextConfig)
    ensures var (l', n) := Final(l, w0.nextConfig, f, i, pc); At(Alone(w, id, pc), w0, id, f, n, l')
    decreases Rank(pc)
  {
    if pc != Pc.Done {
      var c := w0.nextConfig;
      if Rank(pc) >= 7 {
        ForwardMoves(w, w0, id, f, i, l, pc);
      } else {
        CompensatingMoves(w, w0, id, f, i, l, pc);
      }
      SpeaksNext(pc, l, f, i, c);
      AloneLeaves(MakeCall(w, id, pc).0, w0, id, f, i + 1, Landed(l, f, i, pc), Next(pc, Works(f, i), c, Some(l.row)));
    }
  }

  lemma SpeaksNext(pc: Pc, l: Left, f: seq<Fault>, i: nat, c: nat)
    requires pc != Pc.Done && Speaks(pc, l, c)
    ensures Speaks(Next(pc, Works(f, i), c, Some(l.row)), Landed(l, f, i, pc), c)
  {
  }

  // Closed forms: compensation

  /** The row once its failure is stored at call `i`, if that takes effect. */
  function Stored(l: Left, f: seq<Fault>, i: nat, status: Status, serverId: Option<nat>, code: FailureCode): Left {
    if Lands(f, i) then l.(row := Run(l.row.initPaper, status, serverId, Some(code))) else l
  }

  lemma FinalNoting(l: Left, c: nat, f: seq<Fault>, i: nat)
    ensures Final(l, c, f, i, Noting) == Final(l, c, f, i, NotingStart) == (l, i + 1)
  {
  }

  lemma FinalPersisting(l: Left, c: nat, f: seq<Fault>, i: nat, status: Status, serverId: Option<nat>, code: FailureCode)
    ensures Final(l, c, f, i, Persisting(status, serverId, code)) == (Stored(l, f, i, status, serverId, code), i + 2)
  {
    FinalNoting(Stored(l, f, i, status, serverId, code), c, f, i + 1);
  }

  /** What is left when the config stays: the failure, stored at call `i` unless it was before. */
  function KeptLeft(l: Left, c: nat, f: seq<Fault>, i: nat, persisted: bool, status: Status, code: FailureCode): Left {
    if persisted then l else Stored(l, f, i, status, Some(c), code)
  }

  lemma FinalKeepFailing(l: Left, c: nat, f: seq<Fault>, i: nat, persisted: bool, status: Status, code: FailureCode)
    ensures Final(l, c, f, i, KeepFailing(c, persisted, status, code)) ==
            (KeptLeft(l, c, f, i, persisted, status, code), i + if persisted then 1 else 2)
  {
    FinalNoting(l, c, f, i);
    FinalPersisting(l, c, f, i, status, Some(c), code);
  }

  /** Back to CREATED at call `i`; if that reports an error the failure is stored without a config. */
  function UncreatedLeft(l: Left, f: seq<Fault>, i: nat, status: Status, code: FailureCode): Left {
    if !Works(f, i) && Lands(f, i + 1) then l.(row := Run(l.row.initPaper, status, None, Some(code)))
    else if Lands(f, i) then l.(row := Run(l.row.initPaper, CREATED, None, None))
    else l
  }

  lemma FinalRollingBack(l: Left, c: nat, f: seq<Fault>, i: nat, status: Status, code: FailureCode)
    ensures Final(l, c, f, i, RollingBack(status, code)) ==
            (UncreatedLeft(l, f, i, status, code), i + if Works(f, i) then 1 else 3)
  {
    FinalPersisting(Landed(l, f, i, RollingBack(status, code)), c, f, i + 1, status, None, code);
  }

  /** What is left when the config is deleted at call `i`: nothing of it, or the failure with the config. */
  function DeletedLeft(l: Left, c: nat, f: seq<Fault>, i: nat, persisted: bool, status: Status, code: FailureCode): Left {
    var deleted := l.(live := l.live && !Lands(f, i));
    if Works(f, i) then UncreatedLeft(deleted, f, i + 1, status, code)
    else KeptLeft(deleted, c, f, i + 1, persisted, status, code)
  }

  /** How many calls that takes; `persisted`: the failure was stored before without an error. */
  function DeleteCalls(f: seq<Fault>, i: nat, persisted: bool): nat {
    if Works(f, i) then if Works(f, i + 1) then 2 else 4
    else if persisted then 2
    else 3
  }

  lemma FinalDeleting(l: Left, c: nat, f: seq<Fault>, i: nat, persisted: bool, status: Status, code: FailureCode)
    ensures Final(l, c, f, i, Deleting(c, persisted, status, code)) ==
            (DeletedLeft(l, c, f, i, persisted, status, code), i + DeleteCalls(f, i, persisted))
  {
    var deleted := l.(live := l.live && !Lands(f, i));
    assert Landed(l, f, i, Deleting(c, persisted, status, code)) == deleted;
    FinalRollingBack(deleted, c, f, i + 1, status, code);
    FinalKeepFailing(deleted, c, f, i + 1, persisted, status, code);
  }

  /** The failure is stored at call `i`, the config is deleted at the next, and the rest follows. */
  function LeftAfterBookkeeping(l: Left, c: nat, f: seq<Fault>, i: nat): Left {
    DeletedLeft(Stored(l, f, i, FAILED_PROVISION, Some(c), BookkeepingFailed), c, f, i + 1, Works(f, i),
                FAILED_PROVISION, BookkeepingFailed)
  }

  lemma FinalPersistingBefore(l: Left, c: nat, f: seq<Fault>, i: nat)
    ensures Final(l, c, f, i, PersistingBefore(c)) ==
            (LeftAfterBookkeeping(l, c, f, i), i + 1 + DeleteCalls(f, i + 1, Works(f, i)))
  {
    FinalDeleting(Stored(l, f, i, FAILED_PROVISION, Some(c), BookkeepingFailed), c, f, i + 1, Works(f, i),
                  FAILED_PROVISION, BookkeepingFailed);
  }

  /** What is left when the server is stopped at call `i`; without a stop that works the config stays. */
  function StoppedLeft(l: Left, c: nat, f: seq<Fault>, i: nat, persisted: bool): Left {
    var stopped := l.(running := l.running && !Lands(f, i));
    if Works(f, i) then DeletedLeft(stopped, c, f, i + 1, persisted, FAILED_STARTUP, ReadyPersistFailed)
    else KeptLeft(stopped, c, f, i + 1, persisted, FAILED_STARTUP, ReadyPersistFailed)
  }

  function StopCalls(f: seq<Fault>, i: nat, persisted: bool): nat {
    if Works(f, i) then 1 + DeleteCalls(f, i + 1, persisted) else if persisted then 2 else 3
  }

  lemma FinalStopping(l: Left, c: nat, f: seq<Fault>, i: nat, persisted: bool)
    ensures Final(l, c, f, i, Stopping(c, persisted)) == (StoppedLeft(l, c, f, i, persisted), i + StopCalls(f, i, persisted))
  {
    var stopped := l.(running := l.running && !Lands(f, i));
    assert Landed(l, f, i, Stopping(c, persisted)) == stopped;
    FinalDeleting(stopped, c, f, i + 1, persisted, FAILED_STARTUP, ReadyPersistFailed);
    FinalKeepFailing(stopped, c, f, i + 1, persisted, FAILED_STARTUP, ReadyPersistFailed);
  }

  /** As after bookkeeping, with a stop in between. */
  function LeftAfterReady(l: Left, c: nat, f: seq<Fault>, i: nat): Left {
    StoppedLeft(Stored(l, f, i, FAILED_STARTUP, Some(c), ReadyPersistFailed), c, f, i + 1, Works(f, i))
  }

  lemma FinalPersistingReady(l: Left, c: nat, f: seq<Fault>, i: nat)
    ensures Final(l, c, f, i, PersistingReady(c)) ==
            (LeftAfterReady(l, c, f, i), i + 1 + StopCalls(f, i + 1, Works(f, i)))
  {
    FinalStopping(Stored(l, f, i, FAILED_STARTUP, Some(c), ReadyPersistFailed), c, f, i + 1, Works(f, i));
  }

  // Closed forms: the start

  function FailedFrom(f: seq<Fault>, i: nat): (k: nat)
    requires i <= 8
    ensures i <= k <= 8 && (k < 8 ==> !Works(f, k))
    ensures forall j :: i <= j < k ==> Works(f, j)
    decreases 8 - i
  {
    if i == 8 || !Works(f, i) then i else FailedFrom(f, i + 1)
  }

  /** The first of the eight calls that fails, or 8. */
  function FirstFailed(f: seq<Fault>): (k: nat)
    ensures k <= 8 && (k < 8 ==> !Works(f, k))
    ensures forall j :: 0 <= j < k ==> Works(f, j)
  {
    FailedFrom(f, 0)
  }

  /** The row after `k` calls that took effect. */
  function RowAfter(r: Run, c: nat, k: nat): Run {
    if k <= 1 then r
    else if k <= 4 then Run(r.initPaper, PROVISIONING, r.serverId, r.failureCode)
    else if k == 5 then Run(r.initPaper, PROVISIONING, Some(c), r.failureCode)
    else if k <= 7 then Run(r.initPaper, STARTING, Some(c), r.failureCode)
    else Run(r.initPaper, READY, Some(c), r.failureCode)
  }

  function LeftAfter(r: Run, c: nat, k: nat): Left {
    Left(RowAfter(r, c, k), k >= 4, k >= 4, k >= 7)
  }

  /** After call `k`, which may or may not have taken effect. */
  function LeftAtFailure(r: Run, c: nat, f: seq<Fault>, k: nat): Left {
    LeftAfter(r, c, if Lands(f, k) then k + 1 else k)
  }

  /** What a start from row `r` leaves when `k` is the first of its calls to fail. */
  function LeftBy(r: Run, c: nat, f: seq<Fault>, k: nat): Left {
    var l := LeftAtFailure(r, c, f, k);
    match k
    case 0 => l
    case 1 => l
    case 2 => Stored(l, f, 3, FAILED_PROVISION, None, PaperWorkspaceInitFailed)
    case 3 => Stored(l, f, 4, FAILED_PROVISION, None, ConfigCreateFailed)
    case 4 => LeftAfterBookkeeping(l, c, f, 5)
    case 5 => LeftAfterBookkeeping(l, c, f, 6)
    case 6 => Stored(l, f, 7, FAILED_STARTUP, Some(c), ServerStartFailed)
    case 7 => LeftAfterReady(l, c, f, 8)
    case _ => LeftAfter(r, c, 8)
  }

  /** How many calls it makes. */
  function CallsBy(f: seq<Fault>, k: nat): nat {
    match k
    case 0 => 1
    case 1 => 2
    case 2 => 5
    case 3 => 6
    case 4 => 6 + DeleteCalls(f, 6, Works(f, 5))
    case 5 => 7 + DeleteCalls(f, 7, Works(f, 6))
    case 6 => 9
    case 7 => 9 + StopCalls(f, 9, Works(f, 8))
    case _ => 9
  }

  /** Where a start is before call `k`, all calls so far having worked. */
  function Stage(k: nat, c: nat): Pc {
    match k
    case 0 => Reading
    case 1 => MarkingProvisioning
    case 2 => Provisioning
    case 3 => Creating
    case 4 => Attaching(c)
    case 5 => MarkingStarting(c)
    case 6 => Booting(c)
    case 7 => MarkingReady(c)
    case _ => NotingStart
  }

  lemma FailureLeaves(r: Run, c: nat, f: seq<Fault>, k: nat)
    requires k < 8 && !Works(f, k)
    ensures Final(LeftAfter(r, c, k), c, f, k, Stage(k, c)) == (LeftBy(r, c, f, k), CallsBy(f, k))
  {
    var l := LeftAtFailure(r, c, f, k);
    assert Landed(LeftAfter(r, c, k), f, k, Stage(k, c)) == l;
    match k
    case 0 =>
    case 1 =>
    case 2 => FinalPersisting(l, c, f, 3, FAILED_PROVISION, None, PaperWorkspaceInitFailed);
    case 3 => FinalPersisting(l, c, f, 4, FAILED_PROVISION, None, ConfigCreateFailed);
    case 4 => FinalPersistingBefore(l, c, f, 5);
    case 5 => FinalPersistingBefore(l, c, f, 6);
    case 6 => FinalPersisting(l, c, f, 7, FAILED_STARTUP, Some(c), ServerStartFailed);
    case 7 => FinalPersistingReady(l, c, f, 8);
  }

  lemma {:induction false} StageLeaves(r: Run, c: nat, f: seq<Fault>, k: nat)
    requires k <= FirstFailed(f) && r.status == CREATED && r.initPaper
    ensures Final(LeftAfter(r, c, k), c, f, k, Stage(k, c)) == (LeftBy(r, c, f, FirstFailed(f)), CallsBy(f, FirstFailed(f)))
    decreases 8 - k
  {
    if k == 8 {
      FinalNoting(LeftAfter(r, c, 8), c, f, 8);
    } else if k == FirstFailed(f) {
      FailureLeaves(r, c, f, k);
    } else {
      StageWorks(r, c, f, k);
      StageLeaves(r, c, f, k + 1);
    }
  }

  lemma StageWorks(r: Run, c: nat, f: seq<Fault>, k: nat)
    requires k < 8 && Works(f, k) && r.status == CREATED && r.initPaper
    ensures Final(LeftAfter(r, c, k), c, f, k, Stage(k, c)) == Final(LeftAfter(r, c, k + 1), c, f, k + 1, Stage(k + 1, c))
  {
    assert Landed(LeftAfter(r, c, k), f, k, Stage(k, c)) == LeftAfter(r, c, k + 1);
  }

  // Which error is thrown

  function OutcomeOf(before: nat, f: seq<Fault>): Outcome {
    var k := FirstFailed(f);
    if k < 8 then Thrown(CallFailed(before + k)) else Started
  }

  /** Before call `k` of a start that had made `before` calls when it began. */
  predicate Counted(w: World, before: nat, f: seq<Fault>, k: nat) {
    |w.trace| == before + k && w.faults == ToCome(f, k) && k <= FirstFailed(f)
  }

  /** A call that works leads on; one that fails is the error thrown. */
  ghost predicate CountedOn(w: World, ok: bool, before: nat, f: seq<Fault>, k: nat) {
    ok == Works(f, k) && if ok then Counted(w, before, f, k + 1) else w.trace != [] && LastError(w) == OutcomeOf(before, f)
  }

  lemma CallCounted(w: World, op: Op, effect: World, before: nat, f: seq<Fault>, k: nat)
    requires Counted(w, before, f, k) && k < 8
    ensures var (w', ok) := Perform(w, op, true, effect); CountedOn(w', ok, before, f, k)
  {
  }

  lemma WriteCounted(w: World, id: string, status: Status, serverId: Option<Option<nat>>, before: nat, f: seq<Fault>, k: nat)
    requires Counted(w, before, f, k) && k < 8 && id in w.runs
    ensures var (w', ok) := Write(w, id, status, serverId, None); CountedOn(w', ok, before, f, k) && id in w'.runs
  {
    CallCounted(w, WriteRun(id, status), w.(runs := w.runs[id := Patched(w.runs[id], status, serverId, None)]), before, f, k);
  }

  lemma MarkReadyOutcome(w: World, id: string, c: nat, before: nat, f: seq<Fault>)
    requires Counted(w, before, f, 7) && id in w.runs
    ensures MarkReady(w, id, c).1 == OutcomeOf(before, f)
  {
    WriteCounted(w, id, READY, Some(Some(c)), before, f, 7);
  }

  lemma LaunchOutcome(w: World, id: string, c: nat, before: nat, f: seq<Fault>)
    requires Counted(w, before, f, 6) && id in w.runs
    ensures Launch(w, id, c).1 == OutcomeOf(before, f)
  {
    var (w1, ok) := Boot(w, c);
    CallCounted(w, StartServer(c), w.(servers := w.servers + {c}), before, f, 6);
    if ok {
      MarkReadyOutcome(w1, id, c, before, f);
    }
  }

  lemma MarkStartingOutcome(w: World, id: string, c: nat, before: nat, f: seq<Fault>)
    requires Counted(w, before, f, 5) && id in w.runs
    ensures MarkStarting(w, id, c).1 == OutcomeOf(before, f)
  {
    var (w1, ok) := Write(w, id, STARTING, Some(Some(c)), None);
    WriteCounted(w, id, STARTING, Some(Some(c)), before, f, 5);
    if ok {
      LaunchOutcome(w1, id, c, before, f);
    }
  }

  lemma AttachOutcome(w: World, id: string, c: nat, before: nat, f: seq<Fault>)
    requires Counted(w, before, f, 4) && id in w.runs
    ensures Attach(w, id, c).1 == OutcomeOf(before, f)
  {
    var (w1, ok) := Write(w, id, PROVISIONING, Some(Some(c)), None);
    WriteCounted(w, id, PROVISIONING, Some(Some(c)), before, f, 4);
    if ok {
      MarkStartingOutcome(w1, id, c, before, f);
    }
  }

  lemma ConfigureOutcome(w: World, id: string, before: nat, f: seq<Fault>)
    requires Counted(w, before, f, 3) && id in w.runs
    ensures Configure(w, id).1 == OutcomeOf(before, f)
  {
    var (w1, ok) := Create(w, id);
    CallCounted(w, CreateConfig(id), w.(configs := w.configs[w.nextConfig := id], nextConfig := w.nextConfig + 1), before, f, 3);
    if ok {
      AttachOutcome(w1, id, w.nextConfig, before, f);
    }
  }

  lemma PrepareOutcome(w: World, id: string, before: nat, f: seq<Fault>)
    requires Counted(w, before, f, 2) && id in w.runs
    ensures Prepare(w, id).1 == OutcomeOf(before, f)
  {
    var (w1, ok) := Perform(w, Provision(id), true, w);
    CallCounted(w, Provision(id), w, before, f, 2);
    if ok {
      ConfigureOutcome(w1, id, before, f);
    }
  }

  lemma MarkProvisioningOutcome(w: World, id: string, before: nat, f: seq<Fault>)
    requires Counted(w, before, f, 1) && id in w.runs
    ensures MarkProvisioning(w, id).1 == OutcomeOf(before, f)
  {
    var (w1, ok) := Write(w, id, PROVISIONING, None, None);
    WriteCounted(w, id, PROVISIONING, None, before, f, 1);
    if ok {
      PrepareOutcome(w1, id, before, f);
    }
  }

  lemma BeginOutcome(w: World, id: string)
    requires id in w.runs && w.runs[id].status == CREATED && w.runs[id].initPaper
    ensures Begin(w, id).1 == OutcomeOf(|w.trace|, w.faults)
  {
    var (w1, ok) := Read(w, id);
    CallCounted(w, ReadRun(id), w, |w.trace|, w.faults, 0);
    if ok {
      MarkProvisioningOutcome(w1, id, |w.trace|, w.faults);
    }
  }

  // The theorem

  ghost predicate EndsAsListed(w: World, outcome: Outcome, w0: World, id: string, f: seq<Fault>) {
    && id in w0.runs && outcome == OutcomeOf(|w0.trace|, f)
    && At(w, w0, id, f, CallsBy(f, FirstFailed(f)), LeftBy(w0.runs[id], w0.nextConfig, f, FirstFailed(f)))
  }

  lemma BeginLeaves(w: World, id: string)
    requires Fresh(w) && id in w.runs && w.runs[id].status == CREATED && w.runs[id].initPaper
    ensures EndsAsListed(Begin(w, id).0, Begin(w, id).1, w, id, w.faults)
  {
    var r, c := w.runs[id], w.nextConfig;
    assert w.runs[id := r] == w.runs;
    assert At(w, w, id, w.faults, 0, LeftAfter(r, c, 0));
    AloneLeaves(w, w, id, w.faults, 0, LeftAfter(r, c, 0), Reading);
    StageLeaves(r, c, w.faults, 0);
    AloneIsTheSaga(w, id);
    BeginOutcome(w, id);
  }

  /**
   For every world, run and pattern of failing calls, what a start leaves: `LeftBy` gives the stored
   row, the config and the server, `CallsBy` the number of calls, `OutcomeOf` what is thrown.
   A run that is not CREATED, or not of the one supported mode, is only read.
   */
  lemma StartLeaves(w: World, id: string)
    requires Fresh(w) && id in w.runs && id !in w.activeStarts
    ensures var (w', outcome) := StartRun(w, id);
            if w.runs[id].status == CREATED && w.runs[id].initPaper then EndsAsListed(w', outcome, w, id, w.faults)
            else
              && w'.runs == w.runs && w'.configs == w.configs && w'.servers == w.servers
              && outcome == if !Works(w.faults, 0) then Thrown(CallFailed(|w.trace|))
                            else if w.runs[id].status != CREATED then Thrown(NotCreated) else Thrown(UnsupportedMode)
  {
    var w1 := w.(activeStarts := w.activeStarts + {id});
    StartIsBegin(w, id);
    if w.runs[id].status == CREATED && w.runs[id].initPaper {
      BeginLeaves(w1, id);
    }
  }

  predicate MayStart(w: World, id: string) {
    id in w.runs && id !in w.activeStarts && w.runs[id].status == CREATED && w.runs[id].initPaper
  }

  /** The row of the run after a start from `w` that ends in `w'`, its config and its server. */
  ghost predicate Shows(w': World, w: World, id: string, l: Left) {
    && id in w'.runs && w'.runs[id] == l.row
    && (w.nextConfig in w'.configs <==> l.live) && (w.nextConfig in w'.servers <==> l.running)
  }

  lemma StartShows(w: World, id: string)
    requires Fresh(w) && MayStart(w, id)
    ensures var k := FirstFailed(w.faults);
            Shows(StartRun(w, id).0, w, id, LeftBy(w.runs[id], w.nextConfig, w.faults, k))
  {
    StartLeaves(w, id);
  }

  /** What the failures that need no compensation leave, by the call that failed and the write that follows. */
  ghost predicate StepsLeft(r: Run, l: Left, c: nat, f: seq<Fault>, k: nat) {
    && (k == 0 ==> l.row == r)
    && (k == 1 ==> l.row == r.(status := if Lands(f, 1) then PROVISIONING else CREATED))
    && (k == 2 && Lands(f, 3) ==> l.row == Run(true, FAILED_PROVISION, None, Some(PaperWorkspaceInitFailed)))
    && (k == 3 && Lands(f, 4) ==> l.row == Run(true, FAILED_PROVISION, None, Some(ConfigCreateFailed)))
    && (k == 6 && Lands(f, 7) ==> l == Left(Run(true, FAILED_STARTUP, Some(c), Some(ServerStartFailed)), true, true, Lands(f, 6)))
    && (k == 8 ==> l == Left(r.(status := READY, serverId := Some(c)), true, true, true))
  }

  /**
   Failed bookkeeping (attaching or STARTING, call `k`): the failure is kept with its config when
   the delete (k + 2) reports an error, without one when only going back (k + 3) does, and the
   run is CREATED again when both work.
   */
  ghost predicate BookkeepingLeft(l: Left, c: nat, f: seq<Fault>, k: nat) {
    && (l.live <==> !Lands(f, k + 2)) && !l.running
    && (!Works(f, k + 2) && (Lands(f, k + 1) || Lands(f, k + 3)) ==>
          l.row == Run(true, FAILED_PROVISION, Some(c), Some(BookkeepingFailed)))
    && (Works(f, k + 2) && !Works(f, k + 3) && Lands(f, k + 4) ==>
          l.row == Run(true, FAILED_PROVISION, None, Some(BookkeepingFailed)))
    && (Works(f, k + 2) && Works(f, k + 3) ==> l.row == Run(true, CREATED, None, None))
  }

  /** The same when READY cannot be stored, with a stop (call 9) before the delete (10). */
  ghost predicate ReadyLeft(l: Left, c: nat, f: seq<Fault>) {
    && (l.running <==> !Lands(f, 9)) && (l.live <==> !Works(f, 9) || !Lands(f, 10))
    && (!Works(f, 9) && (Lands(f, 8) || Lands(f, 10)) ==>
          l.row == Run(true, FAILED_STARTUP, Some(c), Some(ReadyPersistFailed)))
    && (Works(f, 9) && !Works(f, 10) && (Lands(f, 8) || Lands(f, 11)) ==>
          l.row == Run(true, FAILED_STARTUP, Some(c), Some(ReadyPersistFailed)))
    && (Works(f, 9) && Works(f, 10) && !Works(f, 11) && Lands(f, 12) ==>
          l.row == Run(true, FAILED_STARTUP, None, Some(ReadyPersistFailed)))
    && (Works(f, 9) && Works(f, 10) && Works(f, 11) ==> l.row == Run(true, CREATED, None, None))
  }

  lemma BookkeepingCases(r: Run, c: nat, f: seq<Fault>, k: nat)
    requires (k == 4 || k == 5) && r.initPaper
    ensures BookkeepingLeft(LeftBy(r, c, f, k), c, f, k)
  {
  }

  lemma ReadyCases(r: Run, c: nat, f: seq<Fault>)
    requires r.initPaper
    ensures ReadyLeft(LeftBy(r, c, f, 7), c, f)
  {
  }

  /** The stored row, config and server of a start, by the first call that failed. */
  lemma StartStores(w: World, id: string) returns (l: Left)
    requires Fresh(w) && MayStart(w, id)
    ensures Shows(StartRun(w, id).0, w, id, l)
    ensures var f, c, k := w.faults, w.nextConfig, FirstFailed(w.faults);
            if k == 4 || k == 5 then BookkeepingLeft(l, c, f, k)
            else if k == 7 then ReadyLeft(l, c, f)
            else StepsLeft(w.runs[id], l, c, f, k)
  {
    var r, f, c, k := w.runs[id], w.faults, w.nextConfig, FirstFailed(w.faults);
    StartShows(w, id);
    l := LeftBy(r, c, f, k);
    if k == 4 || k == 5 {
      BookkeepingCases(r, c, f, k);
    } else if k == 7 {
      ReadyCases(r, c, f);
    }
  }
}
