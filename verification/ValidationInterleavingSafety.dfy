/** Safety of any number of starts whose calls interleave, under every pattern of failing calls. */
module ValidationInterleavingSafety {
  import opened Collections
  import opened ValidationSaga
  import opened ValidationSagaProofs
  import opened ValidationInterleaving

  /** A start in progress: its next call, the calls it has made, and which of them raised the error it throws. */
  datatype Progress = Progress(pc: Pc, calls: seq<Call>, error: Option<nat>)

  /** The world, the starts in progress, and of each run the last start that ended. */
  datatype System = System(world: World, starts: map<string, Progress>, ended: map<string, Progress>)

  function Idle(world: World): System {
    System(world, map[], map[])
  }

  /** `Proceed` makes the next call of one start; other services draft runs and report status changes. */
  datatype Event =
    | Request(id: string)
    | Proceed(id: string)
    | Drafted(id: string, run: Run)
    | Reported(id: string, run: Run)

  predicate Enabled(s: System, e: Event) {
    match e
    case Request(_) => true
    case Proceed(id) => id in s.starts && s.starts[id].pc != Pc.Done
    case Drafted(id, run) => id !in s.world.runs && run.status == CREATED
    case Reported(id, run) => id in s.world.runs && run.status != CREATED
  }

  /** A second request for a run that is being started is refused. */
  function Requested(s: System, id: string): System {
    if id in s.starts then s
    else
      s.(world := s.world.(activeStarts := s.world.activeStarts + {id}),
         starts := s.starts[id := Progress(Reading, [], None)])
  }

  /** The error of the first forward call that fails is kept; failures of compensating calls are swallowed. */
  function ErrorAfter(p: Progress, ok: bool): Option<nat> {
    if !ok && Rank(p.pc) >= 7 then Some(|p.calls|) else p.error
  }

  function LastCall(w: World): Call
    requires w.trace != []
  {
    w.trace[|w.trace| - 1]
  }

  function Progressed(p: Progress, w: World, id: string): Progress
    requires p.pc != Pc.Done
  {
    var (w', ok) := MakeCall(w, id, p.pc);
    Progress(After(w, id, p.pc), if w'.trace == [] then p.calls else p.calls + [LastCall(w')], ErrorAfter(p, ok))
  }

  /** After its last call a start is over. */
  function Proceeded(s: System, id: string): System
    requires id in s.starts && s.starts[id].pc != Pc.Done
  {
    Moved(s, id, MakeCall(s.world, id, s.starts[id].pc).0, Progressed(s.starts[id], s.world, id))
  }

  function Moved(s: System, id: string, w: World, p: Progress): System {
    if p.pc == Pc.Done
    then System(w.(activeStarts := w.activeStarts - {id}), s.starts - {id}, s.ended[id := p])
    else System(w, s.starts[id := p], s.ended)
  }

  function StepSystem(s: System, e: Event): System
    requires Enabled(s, e)
  {
    match e
    case Request(id) => Requested(s, id)
    case Proceed(id) => Proceeded(s, id)
    case Drafted(id, run) => s.(world := s.world.(runs := s.world.runs[id := run]))
    case Reported(id, run) => s.(world := s.world.(runs := s.world.runs[id := run]))
  }

  predicate AllEnabled(s: System, es: seq<Event>)
    decreases |es|
  {
    es == [] || (Enabled(s, es[0]) && AllEnabled(StepSystem(s, es[0]), es[1..]))
  }

  function RunSystem(s: System, es: seq<Event>): System
    requires AllEnabled(s, es)
    decreases |es|
  {
    if es == [] then s else RunSystem(StepSystem(s, es[0]), es[1..])
  }

  // What a start knows between its calls

  ghost predicate NoConfig(w: World, id: string) {
    forall c :: c in w.configs ==> w.configs[c] != id
  }

  predicate Has(w: World, id: string, c: nat) {
    c in w.configs && w.configs[c] == id
  }

  predicate Under(w: World, id: string) {
    id in w.runs && w.runs[id].status != CREATED
  }

  ghost predicate Local(w: World, id: string, pc: Pc) {
    match pc
    case Reading => true
    case MarkingProvisioning => id in w.runs && NoConfig(w, id)
    case Provisioning => Under(w, id) && NoConfig(w, id)
    case Creating => Under(w, id) && NoConfig(w, id)
    case Attaching(c) => Has(w, id, c) && c !in w.servers
    case MarkingStarting(c) => Has(w, id, c) && c !in w.servers
    case Booting(c) => Has(w, id, c) && c !in w.servers
    case MarkingReady(c) => Has(w, id, c)
    case PersistingBefore(c) => Has(w, id, c) && c !in w.servers
    case PersistingReady(c) => Has(w, id, c)
    case Stopping(c, _) => Has(w, id, c)
    case Deleting(c, _, status, _) => Has(w, id, c) && c !in w.servers && status != CREATED
    case RollingBack(status, _) => NoConfig(w, id) && status != CREATED
    case Persisting(status, _, _) => status != CREATED
    case Noting => true
    case NotingStart => true
    case Done => true
  }

  /** What is not of run `id` is as before. */
  ghost predicate Frame(w: World, w': World, id: string) {
    && w'.runs.Keys == w.runs.Keys
    && (forall r :: r in w.runs && r != id ==> w'.runs[r] == w.runs[r])
    && (forall c :: c in w.configs && w.configs[c] != id ==> Has(w', w.configs[c], c) && (c in w'.servers <==> c in w.servers))
    && (forall c :: c in w'.configs && w'.configs[c] != id ==> Has(w, w'.configs[c], c))
  }

  /** One safe call for run `id`. */
  ghost predicate Steady(w: World, w': World, id: string) {
    && Safe(w') && Fresh(w') && Frame(w, w', id) && w'.activeStarts == w.activeStarts
    && |w'.trace| == |w.trace| + 1 && w.trace <= w'.trace && w'.trace[|w.trace|].safe
  }

  lemma WriteSteady(w: World, id: string, status: Status, serverId: Option<Option<nat>>, code: Option<Option<FailureCode>>)
    requires Safe(w) && Fresh(w) && (status == CREATED ==> NoConfig(w, id))
    ensures var (w', ok) := Write(w, id, status, serverId, code);
            && Steady(w, w', id) && w'.configs == w.configs && w'.servers == w.servers
            && (ok ==> id in w'.runs && w'.runs[id].status == status)
  {
  }

  lemma IdleSteady(w: World, op: Op, possible: bool, id: string)
    requires Safe(w) && Fresh(w)
    ensures var (w', ok) := Perform(w, op, possible, w);
            && Steady(w, w', id) && w'.runs == w.runs && w'.configs == w.configs && w'.servers == w.servers
            && (ok ==> possible)
  {
  }

  lemma CreateSteady(w: World, id: string)
    requires Safe(w) && Fresh(w) && Under(w, id) && NoConfig(w, id)
    ensures var (w', ok) := Create(w, id);
            && Steady(w, w', id) && (ok ==> Has(w', id, w.nextConfig) && w.nextConfig !in w'.servers)
  {
  }

  lemma BootSteady(w: World, id: string, c: nat)
    requires Safe(w) && Fresh(w) && Has(w, id, c)
    ensures var (w', ok) := Boot(w, c); Steady(w, w', id) && Has(w', id, c)
  {
  }

  lemma StopSteady(w: World, id: string, c: nat)
    requires Safe(w) && Fresh(w) && Has(w, id, c)
    ensures var (w', ok) := Stop(w, c); Steady(w, w', id) && Has(w', id, c) && (ok ==> c !in w'.servers)
  {
  }

  lemma DeleteSteady(w: World, id: string, c: nat)
    requires Safe(w) && Fresh(w) && Has(w, id, c) && c !in w.servers
    ensures var (w', ok) := Delete(w, c); Steady(w, w', id) && (ok ==> NoConfig(w', id))
  {
  }

  ghost predicate CallIsSafe(w: World, id: string, pc: Pc)
    requires pc != Pc.Done
  {
    Steady(w, MakeCall(w, id, pc).0, id) && Local(MakeCall(w, id, pc).0, id, After(w, id, pc))
  }

  lemma EarlyCall(w: World, id: string, pc: Pc)
    requires Safe(w) && Fresh(w) && Local(w, id, pc) && Rank(pc) >= 10
    ensures CallIsSafe(w, id, pc)
  {
    match pc
    case Reading => IdleSteady(w, ReadRun(id), id in w.runs, id);
    case MarkingProvisioning => WriteSteady(w, id, PROVISIONING, None, None);
    case Provisioning => IdleSteady(w, Op.Provision(id), true, id);
    case Creating => CreateSteady(w, id);
    case Attaching(c) => WriteSteady(w, id, PROVISIONING, Some(Some(c)), None);
  }

  lemma LaterCall(w: World, id: string, pc: Pc)
    requires Safe(w) && Fresh(w) && Local(w, id, pc) && 6 <= Rank(pc) < 10
    ensures CallIsSafe(w, id, pc)
  {
    match pc
    case MarkingStarting(c) => WriteSteady(w, id, STARTING, Some(Some(c)), None);
    case Booting(c) => BootSteady(w, id, c);
    case MarkingReady(c) => WriteSteady(w, id, READY, Some(Some(c)), None);
    case PersistingReady(c) => WriteSteady(w, id, FAILED_STARTUP, Some(Some(c)), Some(Some(ReadyPersistFailed)));
  }

  lemma CompensatingCall(w: World, id: string, pc: Pc)
    requires Safe(w) && Fresh(w) && Local(w, id, pc) && 1 <= Rank(pc) < 6
    ensures CallIsSafe(w, id, pc)
  {
    match pc
    case PersistingBefore(c) => WriteSteady(w, id, FAILED_PROVISION, Some(Some(c)), Some(Some(BookkeepingFailed)));
    case Stopping(c, _) => StopSteady(w, id, c);
    case Deleting(c, _, _, _) => DeleteSteady(w, id, c);
    case RollingBack(_, _) => WriteSteady(w, id, CREATED, Some(None), Some(None));
    case Persisting(status, serverId, code) => WriteSteady(w, id, status, Some(serverId), Some(Some(code)));
    case Noting => IdleSteady(w, AppendEvidence(id), true, id);
    case NotingStart => IdleSteady(w, AppendEvidence(id), true, id);
  }

  lemma OtherStartsKeep(w: World, w': World, id: string, other: string, pc: Pc)
    requires Frame(w, w', id) && other != id && Local(w, other, pc)
    ensures Local(w', other, pc)
  {
    if NoConfig(w, other) {
      assert NoConfig(w', other);
    }
  }

  // Every interleaving

  /** The error is that of the first call that failed; while there is none, every call succeeded. */
  predicate ErrorIsFirst(calls: seq<Call>, error: Option<nat>) {
    match error
    case None => forall j :: 0 <= j < |calls| ==> calls[j].ok
    case Some(i) => i < |calls| && !calls[i].ok && forall j :: 0 <= j < i ==> calls[j].ok
  }

  predicate Forward(pc: Pc) {
    Rank(pc) >= 7 || pc == NotingStart
  }

  predicate ProgressIsRight(p: Progress) {
    p.pc != Pc.Done && ErrorIsFirst(p.calls, p.error) && (Forward(p.pc) <==> p.error == None)
  }

  /** A start that ends without an error made only successful calls, its last note excepted. */
  predicate EndIsRight(p: Progress) {
    match p.error
    case None => forall j :: 0 <= j < |p.calls| && !p.calls[j].ok ==> p.calls[j].op.AppendEvidence?
    case Some(_) => ErrorIsFirst(p.calls, p.error)
  }

  ghost predicate SystemSafe(s: System) {
    && Safe(s.world) && Fresh(s.world) && s.world.activeStarts == s.starts.Keys
    && (forall i :: 0 <= i < |s.world.trace| ==> s.world.trace[i].safe)
    && (forall id :: id in s.starts ==> ProgressIsRight(s.starts[id]) && Local(s.world, id, s.starts[id].pc))
    && (forall id :: id in s.ended ==> EndIsRight(s.ended[id]))
  }

  lemma CallsAreSafe(w: World, id: string, pc: Pc)
    requires Safe(w) && Fresh(w) && Local(w, id, pc) && pc != Pc.Done
    ensures CallIsSafe(w, id, pc)
  {
    if Rank(pc) >= 10 {
      EarlyCall(w, id, pc);
    } else if Rank(pc) >= 6 {
      LaterCall(w, id, pc);
    } else {
      CompensatingCall(w, id, pc);
    }
  }

  /** A forward call reports what is recorded of it, and only evidence is noted without a look at the result. */
  lemma RecordedCall(w: World, id: string, pc: Pc)
    requires pc != Pc.Done
    ensures var (w', ok) := MakeCall(w, id, pc);
            && w'.trace != [] && (Rank(pc) >= 7 ==> LastCall(w').ok == ok)
            && (pc == NotingStart ==> LastCall(w').op.AppendEvidence?)
  {
  }

  lemma NextIsForward(pc: Pc, ok: bool, made: nat, read: Option<Run>)
    requires pc != Pc.Done
    ensures var pc' := Next(pc, ok, made, read);
            pc' == Pc.Done || (Forward(pc') <==> Forward(pc) && (Rank(pc) >= 7 ==> ok))
  {
  }

  lemma ProgressedIsRight(p: Progress, w: World, id: string)
    requires ProgressIsRight(p)
    ensures var p' := Progressed(p, w, id); if p'.pc == Pc.Done then EndIsRight(p') else ProgressIsRight(p')
  {
    RecordedCall(w, id, p.pc);
    NextIsForward(p.pc, MakeCall(w, id, p.pc).1, w.nextConfig, RunOf(w, id));
    ExtendedIsRight(p, LastCall(MakeCall(w, id, p.pc).0), MakeCall(w, id, p.pc).1, After(w, id, p.pc));
  }

  lemma ExtendedIsRight(p: Progress, call: Call, ok: bool, pc: Pc)
    requires ProgressIsRight(p) && (Rank(p.pc) >= 7 ==> call.ok == ok)
    requires p.pc == NotingStart ==> call.op.AppendEvidence? && pc == Pc.Done
    requires pc == Pc.Done || (Forward(pc) <==> Forward(p.pc) && (Rank(p.pc) >= 7 ==> ok))
    ensures var p' := Progress(pc, p.calls + [call], ErrorAfter(p, ok));
            if pc == Pc.Done then EndIsRight(p') else ProgressIsRight(p')
  {
  }

  lemma ProceedIsSafe(s: System, id: string)
    requires SystemSafe(s) && id in s.starts
    ensures SystemSafe(Proceeded(s, id))
  {
    var w, p := s.world, s.starts[id];
    var w' := MakeCall(w, id, p.pc).0;
    CallsAreSafe(w, id, p.pc);
    ProgressedIsRight(p, w, id);
    forall other | other in s.starts && other != id
      ensures Local(w', other, s.starts[other].pc)
    {
      OtherStartsKeep(w, w', id, other, s.starts[other].pc);
    }
    MovedIsSafe(s, id, w', Progressed(p, w, id));
  }

  lemma MovedIsSafe(s: System, id: string, w': World, p: Progress)
    requires SystemSafe(s) && id in s.starts && Steady(s.world, w', id) && Local(w', id, p.pc)
    requires if p.pc == Pc.Done then EndIsRight(p) else ProgressIsRight(p)
    requires forall other :: other in s.starts && other != id ==> Local(w', other, s.starts[other].pc)
    ensures SystemSafe(Moved(s, id, w', p))
  {
    assert forall i :: 0 <= i < |s.world.trace| ==> w'.trace[i] == s.world.trace[i];
    if p.pc == Pc.Done {
      EndedIsSafe(s, id, w', p);
    }
  }

  lemma EndedIsSafe(s: System, id: string, w': World, p: Progress)
    requires Safe(w') && Fresh(w') && w'.activeStarts == s.starts.Keys
    requires forall i :: 0 <= i < |w'.trace| ==> w'.trace[i].safe
    requires forall other :: other in s.starts && other != id ==>
               ProgressIsRight(s.starts[other]) && Local(w', other, s.starts[other].pc)
    requires (forall other :: other in s.ended ==> EndIsRight(s.ended[other])) && EndIsRight(p)
    ensures SystemSafe(System(w'.(activeStarts := w'.activeStarts - {id}), s.starts - {id}, s.ended[id := p]))
  {
    ActiveIsNotLocal(w', w'.activeStarts - {id});
  }

  lemma ActiveIsNotLocal(w: World, active: set<string>)
    ensures forall id, pc :: Local(w, id, pc) ==> Local(w.(activeStarts := active), id, pc)
    ensures Safe(w) ==> Safe(w.(activeStarts := active))
  {
  }

  lemma RowKeepsLocal(w: World, id: string, run: Run, other: string, pc: Pc)
    requires Local(w, other, pc) && (id in w.runs ==> run.status != CREATED)
    ensures Local(w.(runs := w.runs[id := run]), other, pc)
  {
  }

  lemma RowIsSafe(s: System, id: string, run: Run)
    requires SystemSafe(s) && (id in s.world.runs <==> run.status != CREATED)
    ensures SystemSafe(s.(world := s.world.(runs := s.world.runs[id := run])))
  {
    forall other | other in s.starts
      ensures Local(s.world.(runs := s.world.runs[id := run]), other, s.starts[other].pc)
    {
      RowKeepsLocal(s.world, id, run, other, s.starts[other].pc);
    }
  }

  lemma StepIsSafe(s: System, e: Event)
    requires SystemSafe(s) && Enabled(s, e)
    ensures SystemSafe(StepSystem(s, e))
  {
    match e
    case Request(id) => ActiveIsNotLocal(s.world, s.world.activeStarts + {id});
    case Proceed(id) => ProceedIsSafe(s, id);
    case Drafted(id, run) => RowIsSafe(s, id, run);
    case Reported(id, run) => RowIsSafe(s, id, run);
  }

  lemma {:induction false} InterleavingKeepsSafety(s: System, es: seq<Event>)
    requires SystemSafe(s) && AllEnabled(s, es)
    ensures SystemSafe(RunSystem(s, es))
    decreases |es|
  {
    if es != [] {
      StepIsSafe(s, es[0]);
      InterleavingKeepsSafety(StepSystem(s, es[0]), es[1..]);
    }
  }

  /**
   However the calls of any number of starts interleave, and whichever of them fail before or
   after taking effect: after every single call a run stored as CREATED has no live config and no
   running server, no run has two live configs and no running server has lost its config. Every
   start that has ended throws the error of the first of its own calls that failed, and ends
   without an error only if all its calls but the evidence succeeded.
   */
  lemma InterleavedStartsAreSafe(faults: seq<Fault>, es: seq<Event>)
    requires AllEnabled(Idle(Initial.(faults := faults)), es)
    ensures var s := RunSystem(Idle(Initial.(faults := faults)), es);
            && Safe(s.world) && (forall i :: 0 <= i < |s.world.trace| ==> s.world.trace[i].safe)
            && forall id :: id in s.ended ==> EndIsRight(s.ended[id])
  {
    InterleavingKeepsSafety(Idle(Initial.(faults := faults)), es);
  }

  // Every start ends

  function CallsOf(es: seq<Event>, id: string): nat {
    if es == [] then 0 else (if es[0] == Proceed(id) then 1 else 0) + CallsOf(es[1..], id)
  }

  function Left(s: System, id: string): nat {
    if id in s.starts then Rank(s.starts[id].pc) else 0
  }

  /** Between two requests for it a run sees at most fourteen calls. */
  lemma {:induction false} StartsEnd(s: System, es: seq<Event>, id: string)
    requires AllEnabled(s, es) && Request(id) !in es
    ensures CallsOf(es, id) + Left(RunSystem(s, es), id) <= Left(s, id) <= 14
    decreases |es|
  {
    if es != [] {
      assert es[0] in es && forall e :: e in es[1..] ==> e in es;
      StartsEnd(StepSystem(s, es[0]), es[1..], id);
    }
  }
}
