/**
 Which bots run on which worker process: the maps of the orchestrator, the worker pool and the
 bot state service, as one value, and the invariant that links them over every run.
 */
module BotFleet {
  import opened Collections
  import opened BotNames

  datatype Assignment = Assignment(workerPid: int, serverId: string, batchId: string)

  datatype Worker = Worker(lastHeartbeatAt: int, lastPingAt: Option<int>, ready: bool, stale: bool)

  /** `alive`: processes spawned whose exit event has not been handled; the rest is the code's state. */
  datatype Fleet = Fleet(
    assignments: map<string, Assignment>,
    recent: map<string, Assignment>,
    workers: map<int, Worker>,
    reports: map<int, seq<string>>,
    stopped: set<string>,
    alive: set<int>)

  const Empty := Fleet(map[], map[], map[], map[], {}, {})

  const HEARTBEAT_TIMEOUT_MS := 25_000

  function OnWorker(m: map<string, Assignment>, pid: int): set<string> {
    set name | name in m && m[name].workerPid == pid
  }

  function Elsewhere(m: map<string, Assignment>, pid: int): map<string, Assignment> {
    map name | name in m && m[name].workerPid != pid :: m[name]
  }

  /** The bots that the given workers last reported. */
  function Reported(reports: map<int, seq<string>>, pids: set<int>): set<string> {
    set pid, name | pid in pids && pid in reports && name in reports[pid] :: name
  }

  // Operations

  function Spawn(f: Fleet, pid: int, now: int): Fleet {
    f.(workers := f.workers[pid := Worker(now, None, false, false)], alive := f.alive + {pid})
  }

  /** Every name is assigned to the worker, and forgotten as recently stopped. */
  function AssignAll(f: Fleet, names: seq<string>, a: Assignment): Fleet {
    f.(assignments := f.assignments + (map name | name in names :: a),
       recent := map name | name in f.recent && name !in names :: f.recent[name])
  }

  /** The names of one chunk go to one new worker each time. */
  function CreateChunks(f: Fleet, chunks: seq<seq<string>>, pids: seq<int>, now: int, serverId: string, batchId: string): Fleet
    requires |pids| == |chunks|
    decreases chunks
  {
    if chunks == [] then f
    else
      var n := |chunks| - 1;
      var before := CreateChunks(f, chunks[..n], pids[..n], now, serverId, batchId);
      AssignAll(Spawn(before, pids[n], now), chunks[n], Assignment(pids[n], serverId, batchId))
  }

  /** The workers of the named bots that have an assignment. */
  function Touched(f: Fleet, names: seq<string>): set<int> {
    set name | name in names && name in f.assignments :: f.assignments[name].workerPid
  }

  /** The named bots on the workers `pids` are stopped; workers of `pids` left without bots are killed. */
  function StopOn(f: Fleet, names: seq<string>, pids: set<int>): Fleet {
    var gone := map name | name in names && name in f.assignments && f.assignments[name].workerPid in pids
                  :: f.assignments[name];
    var kept := f.assignments - gone.Keys;
    var killed := set pid | pid in pids && OnWorker(kept, pid) == {};
    f.(assignments := kept,
       recent := f.recent + gone,
       workers := f.workers - killed,
       reports := f.reports - killed,
       stopped := f.stopped + Reported(f.reports, killed))
  }

  function StopBots(f: Fleet, names: seq<string>): Fleet {
    StopOn(f, names, Touched(f, names))
  }

  function StopAll(f: Fleet): Fleet {
    f.(assignments := map[], workers := map[],
       reports := f.reports - f.workers.Keys,
       stopped := f.stopped + Reported(f.reports, f.workers.Keys))
  }

  function Exit(f: Fleet, pid: int): Fleet {
    f.(assignments := Elsewhere(f.assignments, pid),
       recent := Elsewhere(f.recent, pid),
       workers := f.workers - {pid},
       reports := f.reports - {pid},
       stopped := f.stopped + Reported(f.reports, {pid}),
       alive := f.alive - {pid})
  }

  function Absorb(f: Fleet, pid: int, names: seq<string>): Fleet {
    f.(reports := f.reports[pid := names], stopped := set name | name in f.stopped && name !in names)
  }

  function Heard(f: Fleet, pid: int, now: int): Fleet {
    if pid in f.workers
    then f.(workers := f.workers[pid := f.workers[pid].(ready := true, stale := false, lastHeartbeatAt := now)])
    else f
  }

  /** Connected workers silent for too long are killed, the other connected ones are pinged. */
  function Swept(workers: map<int, Worker>, connected: set<int>, now: int): map<int, Worker> {
    map pid | pid in workers && !(pid in connected && Silent(workers[pid], now))
      :: if pid in connected then workers[pid].(lastPingAt := Some(now)) else workers[pid]
  }

  function Sweep(f: Fleet, connected: set<int>, now: int): Fleet {
    f.(workers := Swept(f.workers, connected, now))
  }

  predicate Silent(w: Worker, now: int) {
    now - w.lastHeartbeatAt > HEARTBEAT_TIMEOUT_MS
  }

  // Runs

  /** Pids in events are those the operating system hands out or reports. */
  datatype Event =
    | CreateBatch(chunks: seq<seq<string>>, pids: seq<int>, now: int, serverId: string, batchId: string)
    | Stop(names: seq<string>)
    | StopEverything
    | Shutdown
    | Exited(pid: int)
    | Report(pid: int, names: seq<string>)
    | Pong(pid: int, now: int)
    | HeartbeatSweep(connected: set<int>, now: int)

  /** New pids are not those of processes whose exit is still to come; only such processes speak. */
  predicate Possible(f: Fleet, e: Event) {
    match e
    case CreateBatch(chunks, pids, _, _, _) =>
      && |pids| == |chunks|
      && (forall i :: 0 <= i < |chunks| ==> |chunks[i]| <= MAX_BOTS_PER_WORKER)
      && (forall i :: 0 <= i < |pids| ==> pids[i] !in f.alive)
      && (forall i, j :: 0 <= i < j < |pids| ==> pids[i] != pids[j])
    case Exited(pid) => pid in f.alive
    case Report(pid, _) => pid in f.alive
    case Pong(pid, _) => pid in f.alive
    case _ => true
  }

  function Step(f: Fleet, e: Event): Fleet
    requires Possible(f, e)
  {
    match e
    case CreateBatch(chunks, pids, now, serverId, batchId) => CreateChunks(f, chunks, pids, now, serverId, batchId)
    case Stop(names) => StopBots(f, names)
    case StopEverything => StopAll(f)
    case Shutdown => f.(assignments := map[], workers := map[])
    case Exited(pid) => Exit(f, pid)
    case Report(pid, names) => Absorb(f, pid, names)
    case Pong(pid, now) => Heard(f, pid, now)
    case HeartbeatSweep(connected, now) => Sweep(f, connected, now)
  }

  predicate AllPossible(f: Fleet, es: seq<Event>)
    decreases es
  {
    es == [] || (Possible(f, es[0]) && AllPossible(Step(f, es[0]), es[1..]))
  }

  function Run(f: Fleet, es: seq<Event>): Fleet
    requires AllPossible(f, es)
    decreases es
  {
    if es == [] then f else Run(Step(f, es[0]), es[1..])
  }

  /**
   Every pid the services mention belongs to a process that has been spawned and not exited,
   no worker is over its limit, and no bot is both assigned and recently stopped.
   */
  ghost predicate Inv(f: Fleet) {
    && (forall name :: name in f.assignments ==> f.assignments[name].workerPid in f.alive)
    && (forall name :: name in f.recent ==> f.recent[name].workerPid in f.alive)
    && f.workers.Keys <= f.alive && f.reports.Keys <= f.alive
    && (forall pid :: |OnWorker(f.assignments, pid)| <= MAX_BOTS_PER_WORKER)
    && f.assignments.Keys !! f.recent.Keys
  }

  lemma SubsetSize<T>(a: set<T>, b: set<T>)
    requires a <= b
    ensures |a| <= |b|
  {
    if a != {} {
      var x :| x in a;
      SubsetSize(a - {x}, b - {x});
    }
  }

  /** Fewer assignments never load a worker more. */
  lemma LoadOnlyFalls(m: map<string, Assignment>, m': map<string, Assignment>)
    requires forall name :: name in m' ==> name in m && m'[name] == m[name]
    requires forall pid :: |OnWorker(m, pid)| <= MAX_BOTS_PER_WORKER
    ensures forall pid :: |OnWorker(m', pid)| <= MAX_BOTS_PER_WORKER
  {
    forall pid
      ensures |OnWorker(m', pid)| <= MAX_BOTS_PER_WORKER
    {
      SubsetSize(OnWorker(m', pid), OnWorker(m, pid));
    }
  }

  lemma NameCount(names: seq<string>)
    ensures |set name | name in names| <= |names|
  {
    if names != [] {
      var n := |names| - 1;
      NameCount(names[..n]);
      assert (set name | name in names) == (set name | name in names[..n]) + {names[n]};
    }
  }

  lemma AssignChunkInv(f: Fleet, names: seq<string>, pid: int, now: int, serverId: string, batchId: string)
    requires Inv(f) && pid !in f.alive && |names| <= MAX_BOTS_PER_WORKER
    ensures Inv(AssignAll(Spawn(f, pid, now), names, Assignment(pid, serverId, batchId)))
  {
    var f' := AssignAll(Spawn(f, pid, now), names, Assignment(pid, serverId, batchId));
    forall p
      ensures |OnWorker(f'.assignments, p)| <= MAX_BOTS_PER_WORKER
    {
      if p == pid {
        assert OnWorker(f'.assignments, pid) == set name | name in names;
        NameCount(names);
      } else {
        SubsetSize(OnWorker(f'.assignments, p), OnWorker(f.assignments, p));
      }
    }
  }

  lemma {:induction false} CreateChunksInv(f: Fleet, chunks: seq<seq<string>>, pids: seq<int>, now: int, serverId: string, batchId: string)
    requires Inv(f) && |pids| == |chunks|
    requires forall i :: 0 <= i < |chunks| ==> |chunks[i]| <= MAX_BOTS_PER_WORKER
    requires forall i :: 0 <= i < |pids| ==> pids[i] !in f.alive
    requires forall i, j :: 0 <= i < j < |pids| ==> pids[i] != pids[j]
    ensures var f' := CreateChunks(f, chunks, pids, now, serverId, batchId);
            Inv(f') && forall p :: p in f'.alive <==> p in f.alive || p in pids
    decreases chunks
  {
    if chunks != [] {
      var n := |chunks| - 1;
      CreateChunksInv(f, chunks[..n], pids[..n], now, serverId, batchId);
      var before := CreateChunks(f, chunks[..n], pids[..n], now, serverId, batchId);
      assert pids == pids[..n] + [pids[n]];
      assert pids[n] !in before.alive;
      AssignChunkInv(before, chunks[n], pids[n], now, serverId, batchId);
    }
  }

  lemma StopInv(f: Fleet, names: seq<string>, pids: set<int>)
    requires Inv(f)
    ensures Inv(StopOn(f, names, pids))
  {
    LoadOnlyFalls(f.assignments, StopOn(f, names, pids).assignments);
  }

  lemma ExitInv(f: Fleet, pid: int)
    requires Inv(f)
    ensures Inv(Exit(f, pid))
  {
    LoadOnlyFalls(f.assignments, Exit(f, pid).assignments);
  }

  lemma StepInv(f: Fleet, e: Event)
    requires Inv(f) && Possible(f, e)
    ensures Inv(Step(f, e))
  {
    match e
    case CreateBatch(chunks, pids, now, serverId, batchId) =>
      CreateChunksInv(f, chunks, pids, now, serverId, batchId);
    case Stop(names) => StopInv(f, names, Touched(f, names));
    case StopEverything => LoadOnlyFalls(f.assignments, map[]);
    case Shutdown => LoadOnlyFalls(f.assignments, map[]);
    case Exited(pid) => ExitInv(f, pid);
    case Report(_, _) =>
    case Pong(_, _) =>
    case HeartbeatSweep(_, _) =>
  }

  lemma {:induction false} RunInv(f: Fleet, es: seq<Event>)
    requires Inv(f) && AllPossible(f, es)
    ensures Inv(Run(f, es))
    decreases es
  {
    if es != [] {
      StepInv(f, es[0]);
      RunInv(Step(f, es[0]), es[1..]);
    }
  }

  /** The invariant holds in every run of batches, stops, kills, reports and exits. */
  lemma EveryRunKeepsInv(es: seq<Event>)
    requires AllPossible(Empty, es)
    ensures Inv(Run(Empty, es))
  {
    LoadOfNothing();
    RunInv(Empty, es);
  }

  lemma LoadOfNothing()
    ensures forall pid :: |OnWorker(map[], pid)| <= MAX_BOTS_PER_WORKER
  {
    forall pid
      ensures |OnWorker(map[], pid)| <= MAX_BOTS_PER_WORKER
    {
      assert OnWorker(map[], pid) == {};
    }
  }

  /** After an exit nothing mentions the process, until a new process is given its pid. */
  lemma {:induction false} ExitedPidIsForgotten(f: Fleet, pid: int, es: seq<Event>)
    requires Inv(f) && pid !in f.alive && AllPossible(f, es)
    requires forall e :: e in es ==> !(e.CreateBatch? && pid in e.pids)
    ensures var f' := Run(f, es);
            && pid !in f'.workers && pid !in f'.reports
            && (forall name :: name in f'.assignments ==> f'.assignments[name].workerPid != pid)
            && (forall name :: name in f'.recent ==> f'.recent[name].workerPid != pid)
    decreases es
  {
    if es != [] {
      var e := es[0];
      assert e in es;
      StepInv(f, e);
      if e.CreateBatch? {
        CreateChunksInv(f, e.chunks, e.pids, e.now, e.serverId, e.batchId);
      }
      assert forall x :: x in es[1..] ==> x in es;
      ExitedPidIsForgotten(Step(f, e), pid, es[1..]);
    }
  }

  /** A stop kills exactly the touched workers that it leaves without an assignment. */
  lemma StopKillsExactlyTheEmptied(f: Fleet, names: seq<string>, pid: int)
    requires pid in f.workers
    ensures var f' := StopBots(f, names);
            pid !in f'.workers <==> pid in Touched(f, names) && OnWorker(f'.assignments, pid) == {}
  {
  }

  /** A stopped bot keeps its assignment as the recent one; every other bot is unaffected. */
  lemma StopMovesTheNamed(f: Fleet, names: seq<string>, name: string)
    requires Inv(f) && name in f.assignments
    ensures var f' := StopBots(f, names);
            if name in names then name !in f'.assignments && name in f'.recent && f'.recent[name] == f.assignments[name]
            else name in f'.assignments && f'.assignments[name] == f.assignments[name] && name !in f'.recent
  {
    if name in names {
      assert f.assignments[name].workerPid in Touched(f, names);
    }
  }

  /**
   Naming every assigned bot still leaves the workers that had none: a later batch with the
   same names takes the bots over, and no stop will ever touch the worker that lost them.
   */
  lemma EmptyWorkersSurviveStops(f: Fleet, names: seq<string>, pid: int)
    requires pid in f.workers && forall name :: name in f.assignments ==> name in names
    ensures pid in StopBots(f, names).workers <==> OnWorker(f.assignments, pid) == {}
  {
    var f' := StopBots(f, names);
    assert f'.assignments == map[];
    if name :| name in OnWorker(f.assignments, pid) {
      assert pid in Touched(f, names);
      assert OnWorker(f'.assignments, pid) == {};
    }
    if pid in Touched(f, names) {
      var name :| name in names && name in f.assignments && f.assignments[name].workerPid == pid;
      assert name in OnWorker(f.assignments, pid);
    }
  }
}
