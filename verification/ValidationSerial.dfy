/**
 Starts that interleave do not disturb each other: each leaves its run, its config and its server
 as if it had run alone, under the faults that its own calls met and with the config number that
 it was given. So what is proved of one start holds of each of many.
 */
module ValidationSerial {
  import opened Collections
  import opened ValidationSaga
  import opened ValidationSagaProofs
  import opened ValidationReferences
  import opened ValidationOutcomes
  import opened ValidationInterleaving
  import opened ValidationInterleavingSafety

  /** Two worlds agree on run `id`, the configs that belong to it and their servers. */
  ghost predicate Agree(w: World, v: World, id: string) {
    && RunOf(w, id) == RunOf(v, id)
    && (forall c :: Has(w, id, c) <==> Has(v, id, c))
    && (forall c :: Has(w, id, c) ==> (c in w.servers <==> c in v.servers))
  }

  predicate SameCall(a: Call, b: Call) {
    a.op == b.op && a.ok == b.ok && a.applied == b.applied
  }

  ghost predicate SameCalls(a: seq<Call>, b: seq<Call>) {
    |a| == |b| && forall i :: 0 <= i < |a| ==> SameCall(a[i], b[i])
  }

  /** What a call did in `w`, ending in `w'`, and in `v`, ending in `v'`, is the same for run `id`. */
  ghost predicate Paired(w': World, ok: bool, v: World, v': World, ok': bool, id: string) {
    && ok == ok' && Agree(w', v', id) && Fresh(v')
    && v'.faults == (if v.faults == [] then [] else v.faults[1..])
    && w'.trace != [] && |v'.trace| == |v.trace| + 1 && v.trace <= v'.trace && SameCall(LastCall(w'), LastCall(v'))
  }

  lemma PerformPaired(w: World, v: World, id: string, op: Op, possible: bool, w1: World, v1: World)
    requires Agree(w, v, id) && Agree(w1, v1, id) && Fresh(v) && Fresh(v1) && NextFault(w) == NextFault(v)
    ensures var (w', ok) := Perform(w, op, possible, w1);
            var (v', ok') := Perform(v, op, possible, v1);
            Paired(w', ok, v, v', ok', id) && (v'.nextConfig == v.nextConfig || v'.nextConfig == v1.nextConfig)
  {
    var (w', ok) := Perform(w, op, possible, w1);
    var (v', ok') := Perform(v, op, possible, v1);
    SameRowsAgree(if possible && NextFault(w) != FailsBefore then w1 else w,
                  if possible && NextFault(w) != FailsBefore then v1 else v, w', v', id);
  }

  lemma SameRowsAgree(w: World, v: World, w': World, v': World, id: string)
    requires Agree(w, v, id) && Fresh(v)
    requires w'.runs == w.runs && w'.configs == w.configs && w'.servers == w.servers
    requires v'.runs == v.runs && v'.configs == v.configs && v'.servers == v.servers && v'.nextConfig == v.nextConfig
    ensures Agree(w', v', id) && Fresh(v')
  {
    assert forall c :: Has(w', id, c) <==> Has(w, id, c);
    assert forall c :: Has(v', id, c) <==> Has(v, id, c);
  }

  lemma WritePaired(w: World, v: World, id: string, status: Status, serverId: Option<Option<nat>>, code: Option<Option<FailureCode>>)
    requires Agree(w, v, id) && Fresh(v) && NextFault(w) == NextFault(v)
    ensures var (w', ok) := Write(w, id, status, serverId, code);
            var (v', ok') := Write(v, id, status, serverId, code);
            Paired(w', ok, v, v', ok', id) && v'.nextConfig == v.nextConfig
  {
    if id in w.runs {
      var w1 := w.(runs := w.runs[id := Patched(w.runs[id], status, serverId, code)]);
      var v1 := v.(runs := v.runs[id := Patched(v.runs[id], status, serverId, code)]);
      RowWrittenAgrees(w, v, id, Patched(w.runs[id], status, serverId, code));
      PerformPaired(w, v, id, WriteRun(id, status), true, w1, v1);
    } else {
      PerformPaired(w, v, id, WriteRun(id, status), false, w, v);
    }
  }

  lemma RowWrittenAgrees(w: World, v: World, id: string, run: Run)
    requires Agree(w, v, id)
    ensures Agree(w.(runs := w.runs[id := run]), v.(runs := v.runs[id := run]), id)
  {
    var w1, v1 := w.(runs := w.runs[id := run]), v.(runs := v.runs[id := run]);
    assert forall c :: Has(w1, id, c) <==> Has(w, id, c);
    assert forall c :: Has(v1, id, c) <==> Has(v, id, c);
    assert RunOf(w1, id) == Some(run) == RunOf(v1, id);
  }

  lemma CreatePaired(w: World, v: World, id: string)
    requires Agree(w, v, id) && Fresh(w) && Fresh(v) && NextFault(w) == NextFault(v) && w.nextConfig == v.nextConfig
    ensures var (w', ok) := Create(w, id);
            var (v', ok') := Create(v, id);
            Paired(w', ok, v, v', ok', id)
  {
    var n := w.nextConfig;
    var w1 := w.(configs := w.configs[n := id], nextConfig := n + 1);
    var v1 := v.(configs := v.configs[n := id], nextConfig := n + 1);
    MadeAgrees(w, v, id, n, w1, v1);
    PerformPaired(w, v, id, CreateConfig(id), true, w1, v1);
  }

  lemma MadeAgrees(w: World, v: World, id: string, n: nat, w1: World, v1: World)
    requires Agree(w, v, id) && Fresh(w) && Fresh(v) && w.nextConfig == v.nextConfig == n
    requires w1 == w.(configs := w.configs[n := id], nextConfig := n + 1)
    requires v1 == v.(configs := v.configs[n := id], nextConfig := n + 1)
    ensures Agree(w1, v1, id) && Fresh(v1)
  {
    assert forall c :: Has(w1, id, c) <==> c == n || Has(w, id, c);
    assert forall c :: Has(v1, id, c) <==> c == n || Has(v, id, c);
  }

  lemma BootPaired(w: World, v: World, id: string, c: nat)
    requires Agree(w, v, id) && Fresh(v) && NextFault(w) == NextFault(v) && Has(w, id, c)
    ensures var (w', ok) := Boot(w, c);
            var (v', ok') := Boot(v, c);
            Paired(w', ok, v, v', ok', id) && v'.nextConfig == v.nextConfig
  {
    ServersAgree(w, v, id, w.servers + {c}, v.servers + {c});
    assert Has(v, id, c);
    PerformPaired(w, v, id, StartServer(c), true, w.(servers := w.servers + {c}), v.(servers := v.servers + {c}));
  }

  lemma StopPaired(w: World, v: World, id: string, c: nat)
    requires Agree(w, v, id) && Fresh(v) && NextFault(w) == NextFault(v)
    ensures var (w', ok) := Stop(w, c);
            var (v', ok') := Stop(v, c);
            Paired(w', ok, v, v', ok', id) && v'.nextConfig == v.nextConfig
  {
    ServersAgree(w, v, id, w.servers - {c}, v.servers - {c});
    PerformPaired(w, v, id, StopServer(c), true, w.(servers := w.servers - {c}), v.(servers := v.servers - {c}));
  }

  lemma ServersAgree(w: World, v: World, id: string, ws: set<nat>, vs: set<nat>)
    requires Agree(w, v, id) && forall c :: Has(w, id, c) ==> (c in ws <==> c in vs)
    ensures Agree(w.(servers := ws), v.(servers := vs), id)
  {
    assert forall c :: Has(w.(servers := ws), id, c) <==> Has(w, id, c);
    assert forall c :: Has(v.(servers := vs), id, c) <==> Has(v, id, c);
  }

  lemma DeletePaired(w: World, v: World, id: string, c: nat)
    requires Agree(w, v, id) && Fresh(v) && NextFault(w) == NextFault(v)
    ensures var (w', ok) := Delete(w, c);
            var (v', ok') := Delete(v, c);
            Paired(w', ok, v, v', ok', id) && v'.nextConfig == v.nextConfig
  {
    var w1, v1 := w.(configs := w.configs - {c}), v.(configs := v.configs - {c});
    assert forall d :: Has(w1, id, d) <==> d != c && Has(w, id, d);
    assert forall d :: Has(v1, id, d) <==> d != c && Has(v, id, d);
    PerformPaired(w, v, id, DeleteConfig(c), true, w1, v1);
  }

  /** A call of start `id` in each of two agreeing worlds that meets the same fault. */
  ghost predicate CallsAgree(w: World, v: World, id: string, pc: Pc)
    requires pc != Pc.Done
  {
    var (w', ok) := MakeCall(w, id, pc);
    var (v', ok') := MakeCall(v, id, pc);
    Paired(w', ok, v, v', ok', id) && (pc != Creating ==> v'.nextConfig == v.nextConfig)
  }

  lemma EarlyCallsAgree(w: World, v: World, id: string, pc: Pc)
    requires Fresh(w) && Fresh(v) && Agree(w, v, id) && NextFault(w) == NextFault(v) && Rank(pc) >= 10
    requires pc == Creating ==> w.nextConfig == v.nextConfig
    ensures CallsAgree(w, v, id, pc)
  {
    match pc
    case Reading => PerformPaired(w, v, id, ReadRun(id), id in w.runs, w, v);
    case MarkingProvisioning => WritePaired(w, v, id, PROVISIONING, None, None);
    case Provisioning => PerformPaired(w, v, id, Op.Provision(id), true, w, v);
    case Creating => CreatePaired(w, v, id);
    case Attaching(c) => WritePaired(w, v, id, PROVISIONING, Some(Some(c)), None);
  }

  lemma LaterCallsAgree(w: World, v: World, id: string, pc: Pc)
    requires Fresh(v) && Agree(w, v, id) && NextFault(w) == NextFault(v) && 6 <= Rank(pc) < 10
    requires Local(w, id, pc)
    ensures CallsAgree(w, v, id, pc)
  {
    match pc
    case MarkingStarting(c) => WritePaired(w, v, id, STARTING, Some(Some(c)), None);
    case Booting(c) => BootPaired(w, v, id, c);
    case MarkingReady(c) => WritePaired(w, v, id, READY, Some(Some(c)), None);
    case PersistingReady(c) => WritePaired(w, v, id, FAILED_STARTUP, Some(Some(c)), Some(Some(ReadyPersistFailed)));
  }

  lemma CompensatingCallsAgree(w: World, v: World, id: string, pc: Pc)
    requires Fresh(v) && Agree(w, v, id) && NextFault(w) == NextFault(v) && 1 <= Rank(pc) < 6
    ensures CallsAgree(w, v, id, pc)
  {
    match pc
    case PersistingBefore(c) => WritePaired(w, v, id, FAILED_PROVISION, Some(Some(c)), Some(Some(BookkeepingFailed)));
    case Stopping(c, _) => StopPaired(w, v, id, c);
    case Deleting(c, _, _, _) => DeletePaired(w, v, id, c);
    case RollingBack(_, _) => WritePaired(w, v, id, CREATED, Some(None), Some(None));
    case Persisting(status, serverId, code) => WritePaired(w, v, id, status, Some(serverId), Some(Some(code)));
    case Noting => PerformPaired(w, v, id, AppendEvidence(id), true, w, v);
    case NotingStart => PerformPaired(w, v, id, AppendEvidence(id), true, w, v);
  }

  lemma NextAgrees(pc: Pc, ok: bool, m: nat, n: nat, read: Option<Run>)
    requires pc != Pc.Done && (pc == Creating ==> m == n)
    ensures Next(pc, ok, m, read) == Next(pc, ok, n, read)
  {
  }

  // One start among many

  /** Nobody requests, drafts or reports on run `id`. */
  predicate Undisturbed(es: seq<Event>, id: string) {
    forall e :: e in es ==> e.id == id ==> e.Proceed?
  }

  /** The faults that the calls of start `id` meet. */
  function OwnFaults(s: System, es: seq<Event>, id: string): seq<Fault>
    requires AllEnabled(s, es)
    decreases |es|
  {
    if es == [] then []
    else
      var rest := OwnFaults(StepSystem(s, es[0]), es[1..], id);
      if es[0] == Proceed(id) then [NextFault(s.world)] + rest else rest
  }

  /** The config number at the moment start `id` creates its config, if it comes to that. */
  function OwnNumber(s: System, es: seq<Event>, id: string): Option<nat>
    requires AllEnabled(s, es)
    decreases |es|
  {
    if es == [] then None
    else if es[0] == Proceed(id) && s.starts[id].pc == Creating then Some(s.world.nextConfig)
    else OwnNumber(StepSystem(s, es[0]), es[1..], id)
  }

  /** Start `id` in the system and the start that runs alone in `v` are at the same point. */
  ghost predicate InStep(s: System, es: seq<Event>, id: string, v: World, base: nat)
    requires AllEnabled(s, es)
  {
    && Agree(s.world, v, id) && Fresh(v) && base <= |v.trace|
    && v.faults == OwnFaults(s, es, id)
    && (id in s.starts ==>
          && SameCalls(s.starts[id].calls, v.trace[base..])
          && (Rank(s.starts[id].pc) >= 11 && OwnNumber(s, es, id).Some? ==> v.nextConfig == OwnNumber(s, es, id).value))
    && (id !in s.starts ==> id in s.ended && SameCalls(s.ended[id].calls, v.trace[base..]))
  }

  /** The world in which the start alone ends. */
  function Rest(s: System, id: string, v: World): World {
    if id in s.starts then Alone(v, id, s.starts[id].pc) else v
  }

  lemma OwnStep(s: System, es: seq<Event>, id: string, v: World, base: nat)
    requires SystemSafe(s) && AllEnabled(s, es) && es != [] && es[0] == Proceed(id) && InStep(s, es, id, v, base)
    ensures var v' := MakeCall(v, id, s.starts[id].pc).0;
            && InStep(StepSystem(s, es[0]), es[1..], id, v', base)
            && Rest(StepSystem(s, es[0]), id, v') == Rest(s, id, v)
  {
    var p := s.starts[id];
    if Rank(p.pc) >= 10 {
      EarlyCallsAgree(s.world, v, id, p.pc);
    } else if Rank(p.pc) >= 6 {
      LaterCallsAgree(s.world, v, id, p.pc);
    } else {
      CompensatingCallsAgree(s.world, v, id, p.pc);
    }
    var (w', ok) := MakeCall(s.world, id, p.pc);
    var v' := MakeCall(v, id, p.pc).0;
    NextAgrees(p.pc, ok, s.world.nextConfig, v.nextConfig, RunOf(v, id));
    AloneStep(v, id, p.pc);
    StillInStep(s, es, id, v, w', v', Progressed(p, s.world, id), base);
  }

  lemma StillInStep(s: System, es: seq<Event>, id: string, v: World, w': World, v': World, p': Progress, base: nat)
    requires AllEnabled(s, es) && es != [] && es[0] == Proceed(id) && InStep(s, es, id, v, base)
    requires StepSystem(s, es[0]) == Moved(s, id, w', p') && Rank(p'.pc) < Rank(s.starts[id].pc)
    requires Agree(w', v', id) && Fresh(v') && v'.faults == (if v.faults == [] then [] else v.faults[1..])
    requires s.starts[id].pc != Creating ==> v'.nextConfig == v.nextConfig
    requires w'.trace != [] && |v'.trace| == |v.trace| + 1 && v.trace <= v'.trace && SameCall(LastCall(w'), LastCall(v'))
    requires p'.calls == s.starts[id].calls + [LastCall(w')]
    ensures InStep(StepSystem(s, es[0]), es[1..], id, v', base)
  {
    SameCallsExtend(s.starts[id].calls, v.trace, LastCall(w'), v'.trace, base);
    if p'.pc == Pc.Done {
      SameRowsAgree(w', v', w'.(activeStarts := w'.activeStarts - {id}), v', id);
    }
  }

  lemma SameCallsExtend(calls: seq<Call>, trace: seq<Call>, call: Call, trace': seq<Call>, base: nat)
    requires base <= |trace| && SameCalls(calls, trace[base..])
    requires |trace'| == |trace| + 1 && trace <= trace' && SameCall(call, trace'[|trace|])
    ensures SameCalls(calls + [call], trace'[base..])
  {
    assert trace'[base..] == trace[base..] + [trace'[|trace|]];
  }

  /** A step of another start, or about another run. */
  lemma OthersStep(s: System, e: Event, id: string, v: World)
    requires SystemSafe(s) && Enabled(s, e) && e.id != id && Agree(s.world, v, id)
    ensures Agree(StepSystem(s, e).world, v, id)
    ensures id in StepSystem(s, e).starts <==> id in s.starts
    ensures id in s.starts ==> StepSystem(s, e).starts[id] == s.starts[id]
    ensures id in s.ended ==> id in StepSystem(s, e).ended && StepSystem(s, e).ended[id] == s.ended[id]
  {
    if e.Proceed? {
      var w' := MakeCall(s.world, e.id, s.starts[e.id].pc).0;
      CallsAreSafe(s.world, e.id, s.starts[e.id].pc);
      FramedAgrees(s.world, w', e.id, v, id);
      FramedAgrees(s.world, w'.(activeStarts := w'.activeStarts - {e.id}), e.id, v, id);
    } else {
      FramedAgrees(s.world, StepSystem(s, e).world, e.id, v, id);
    }
  }

  lemma FramedAgrees(w: World, w': World, other: string, v: World, id: string)
    requires Agree(w, v, id) && other != id && RunOf(w', id) == RunOf(w, id)
    requires forall c :: c in w.configs && w.configs[c] != other ==> Has(w', w.configs[c], c) && (c in w'.servers <==> c in w.servers)
    requires forall c :: c in w'.configs && w'.configs[c] != other ==> Has(w, w'.configs[c], c)
    ensures Agree(w', v, id)
  {
    assert forall c :: Has(w', id, c) <==> Has(w, id, c);
  }

  lemma {:induction false} StartsAreSerial(s: System, es: seq<Event>, id: string, v: World, base: nat)
    requires SystemSafe(s) && AllEnabled(s, es) && Undisturbed(es, id) && InStep(s, es, id, v, base)
    requires id !in RunSystem(s, es).starts
    ensures var s' := RunSystem(s, es);
            && Agree(s'.world, Rest(s, id, v), id)
            && id in s'.ended && base <= |Rest(s, id, v).trace|
            && SameCalls(s'.ended[id].calls, Rest(s, id, v).trace[base..])
    decreases |es|
  {
    if es != [] {
      var s1 := StepSystem(s, es[0]);
      assert es[0] in es && forall e :: e in es[1..] ==> e in es;
      StepIsSafe(s, es[0]);
      if es[0].id == id {
        OwnStep(s, es, id, v, base);
        StartsAreSerial(s1, es[1..], id, MakeCall(v, id, s.starts[id].pc).0, base);
      } else {
        OthersStep(s, es[0], id, v);
        StartsAreSerial(s1, es[1..], id, v, base);
      }
    }
  }

  /** The number is handed out later, so it is not smaller than the next one now. */
  lemma {:induction false} NumbersGrow(s: System, es: seq<Event>, id: string)
    requires AllEnabled(s, es)
    ensures OwnNumber(s, es, id).Some? ==> s.world.nextConfig <= OwnNumber(s, es, id).value
    decreases |es|
  {
    if es != [] {
      NumbersGrow(StepSystem(s, es[0]), es[1..], id);
      StepGrows(s, es[0]);
    }
  }

  lemma StepGrows(s: System, e: Event)
    requires Enabled(s, e)
    ensures s.world.nextConfig <= StepSystem(s, e).world.nextConfig
  {
    if e.Proceed? {
      CallGrows(s.world, e.id, s.starts[e.id].pc);
    }
  }

  lemma CallGrows(w: World, id: string, pc: Pc)
    requires pc != Pc.Done
    ensures w.nextConfig <= MakeCall(w, id, pc).0.nextConfig
  {
  }

  /** The world at the beginning, with the faults that the calls of start `id` will meet and its number. */
  function OwnWorld(s: System, es: seq<Event>, id: string): World
    requires AllEnabled(s, es)
  {
    s.world.(faults := OwnFaults(s, es, id), nextConfig := OwnNumber(s, es, id).GetOr(s.world.nextConfig))
  }

  /**
   A start that begins and ends among any others leaves its run, its config and its server as if
   it had run alone in its own world, and makes the same calls with the same results.
   */
  lemma InterleavedStartIsAlone(s: System, es: seq<Event>, id: string)
    requires SystemSafe(s) && AllEnabled(s, es) && Undisturbed(es, id)
    requires id in s.starts && s.starts[id] == Progress(Reading, [], None) && id !in RunSystem(s, es).starts
    ensures var s', v := RunSystem(s, es), OwnWorld(s, es, id);
            var alone := Begin(v, id).0;
            && Agree(s'.world, alone, id) && id in s'.ended
            && |v.trace| <= |alone.trace| && SameCalls(s'.ended[id].calls, alone.trace[|v.trace|..])
  {
    var v := OwnWorld(s, es, id);
    NumbersGrow(s, es, id);
    SameRowsAgree(s.world, s.world, s.world, s.world, id);
    assert forall c :: Has(v, id, c) <==> Has(s.world, id, c);
    StartsAreSerial(s, es, id, v, |v.trace|);
    AloneIsTheSaga(v, id);
  }

  /**
   Exactly when an interleaved start leaves its run referring to the config that it made and
   deleted, for every interleaving and all faults: as for one start, by the faults that its own
   calls meet. The run does not name the number before the config gets it.
   */
  lemma InterleavedDanglesIff(s: System, es: seq<Event>, id: string)
    requires SystemSafe(s) && AllEnabled(s, es) && Undisturbed(es, id)
    requires id in s.starts && s.starts[id] == Progress(Reading, [], None) && id !in RunSystem(s, es).starts
    requires id in s.world.runs && !Refers(s.world, id, OwnWorld(s, es, id).nextConfig)
    ensures var c, w' := OwnWorld(s, es, id).nextConfig, RunSystem(s, es).world;
            Refers(w', id, c) && !Has(w', id, c) <==>
            && s.world.runs[id].status == CREATED && s.world.runs[id].initPaper
            && StartFaults(OwnFaults(s, es, id), false)
  {
    var v := OwnWorld(s, es, id);
    NumbersGrow(s, es, id);
    InterleavedStartIsAlone(s, es, id);
    BeginDangles(v, id);
    StartFaultsAre(v.faults, false);
    BeginNamesMade(v, id);
  }

  /** An interleaved start leaves of its run, its config and its server what its own faults determine. */
  lemma InterleavedStartLeaves(s: System, es: seq<Event>, id: string)
    requires SystemSafe(s) && AllEnabled(s, es) && Undisturbed(es, id)
    requires id in s.starts && s.starts[id] == Progress(Reading, [], None) && id !in RunSystem(s, es).starts
    requires id in s.world.runs && s.world.runs[id].status == CREATED && s.world.runs[id].initPaper
    ensures var f, c, w' := OwnFaults(s, es, id), OwnWorld(s, es, id).nextConfig, RunSystem(s, es).world;
            LooksLike(w', id, c, LeftBy(s.world.runs[id], c, f, FirstFailed(f)))
  {
    var v := OwnWorld(s, es, id);
    NumbersGrow(s, es, id);
    InterleavedStartIsAlone(s, es, id);
    BeginLeaves(v, id);
    AgreeingLooksLike(RunSystem(s, es).world, Begin(v, id).0, v, id, CallsBy(v.faults, FirstFailed(v.faults)),
                      LeftBy(v.runs[id], v.nextConfig, v.faults, FirstFailed(v.faults)));
  }

  /** The row of the run, and whether it has config `c` live and running. */
  ghost predicate LooksLike(w: World, id: string, c: nat, l: Left) {
    && RunOf(w, id) == Some(l.row) && (Has(w, id, c) <==> l.live)
    && (l.live ==> (c in w.servers <==> l.running))
  }

  lemma AgreeingLooksLike(w: World, alone: World, v: World, id: string, calls: nat, l: Left)
    requires Agree(w, alone, id) && At(alone, v, id, v.faults, calls, l)
    ensures LooksLike(w, id, v.nextConfig, l)
  {
    assert Has(alone, id, v.nextConfig) <==> l.live;
  }

  predicate ForgottenAt(calls: seq<Call>, p: nat, w: World, id: string) {
    p < |calls| && calls[p].op.DeleteConfig? && calls[p].ok && Refers(w, id, calls[p].op.configId) ==>
      !WritesAfter(calls, p)
  }

  /** A delete that reported success is forgotten by every interleaved start too, by its own later writes. */
  lemma InterleavedDeletesAreForgotten(s: System, es: seq<Event>, id: string, p: nat)
    requires SystemSafe(s) && AllEnabled(s, es) && Undisturbed(es, id)
    requires id in s.starts && s.starts[id] == Progress(Reading, [], None) && id !in RunSystem(s, es).starts
    ensures var s' := RunSystem(s, es);
            id in s'.ended && ForgottenAt(s'.ended[id].calls, p, s'.world, id)
  {
    var s', v := RunSystem(s, es), OwnWorld(s, es, id);
    NumbersGrow(s, es, id);
    InterleavedStartIsAlone(s, es, id);
    assert Safe(v) && Fresh(v);
    BeginEnds(v, id);
    var alone := Begin(v, id).0;
    var calls := s'.ended[id].calls;
    if p < |calls| && calls[p].op.DeleteConfig? && calls[p].ok && Refers(s'.world, id, calls[p].op.configId) {
      assert SameCall(calls[p], alone.trace[|v.trace|..][p]);
      LaterWritesAreShared(calls, alone.trace, |v.trace|, p);
    }
  }

  lemma LaterWritesAreShared(calls: seq<Call>, trace: seq<Call>, base: nat, p: nat)
    requires base <= |trace| && SameCalls(calls, trace[base..]) && p < |calls|
    ensures WritesAfter(calls, p) ==> WritesAfter(trace, base + p)
  {
    if WritesAfter(calls, p) {
      var q :| 0 <= q < |calls| && p < q && calls[q].op.WriteRun? && calls[q].applied;
      assert SameCall(calls[q], trace[base..][q]) && trace[base..][q] == trace[base + q];
    }
  }
}
