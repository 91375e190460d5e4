/**
 The three services that keep the maps of BotFleet, with their loops. Each method brings the
 combined state to the value that BotFleet gives for it.
 */
module BotOrchestrator {
  import opened Collections
  import opened BotNames
  import Model = BotFleet
  import opened BotFleet
  import opened BotFleetFacts

  class WorkerPool {
    var workers: map<int, Worker>
    /** Processes spawned whose exit has not been handled. */
    ghost var alive: set<int>

    constructor ()
      ensures workers == map[] && alive == {}
    {
      workers, alive := map[], {};
    }

    method Spawn(pid: int, now: int)
      modifies this
      ensures workers == old(workers)[pid := Worker(now, None, false, false)] && alive == old(alive) + {pid}
    {
      workers := workers[pid := Worker(now, None, false, false)];
      alive := alive + {pid};
    }

    method Kill(pid: int)
      modifies this
      ensures workers == old(workers) - {pid} && alive == old(alive)
    {
      if pid in workers {
        workers := workers - {pid};
      }
    }

    method KillAll()
      modifies this
      ensures workers == map[] && alive == old(alive)
    {
      var pids: set<int> := workers.Keys;
      while pids != {}
        invariant workers.Keys == pids && alive == old(alive)
        decreases pids
      {
        HasMember(pids);
        var pid :| pid in pids;
        Kill(pid);
        pids := pids - {pid};
      }
    }

    method ChildExited(pid: int)
      modifies this
      ensures workers == old(workers) - {pid} && alive == old(alive) - {pid}
    {
      workers := workers - {pid};
      alive := alive - {pid};
    }

    method ProcessPong(pid: int, now: int)
      modifies this
      ensures alive == old(alive)
      ensures workers == if pid in old(workers)
        then old(workers)[pid := old(workers)[pid].(ready := true, stale := false, lastHeartbeatAt := now)] else old(workers)
    {
      if pid !in workers {
        return;
      }
      workers := workers[pid := workers[pid].(ready := true, stale := false, lastHeartbeatAt := now)];
    }

    method HeartbeatSweep(connected: set<int>, now: int)
      modifies this
      ensures alive == old(alive)
      ensures workers == Swept(old(workers), connected, now)
    {
      var pids: set<int> := workers.Keys;
      while pids != {}
        invariant pids <= old(workers).Keys && alive == old(alive)
        invariant forall p :: p in workers <==>
          p in old(workers) && (p in pids || !(p in connected && Silent(old(workers)[p], now)))
        invariant forall p :: p in workers ==>
          workers[p] == if p !in pids && p in connected then old(workers)[p].(lastPingAt := Some(now)) else old(workers)[p]
        decreases pids
      {
        HasMember(pids);
        var pid :| pid in pids;
        pids := pids - {pid};
        if pid !in connected {
          continue;
        }
        if now - workers[pid].lastHeartbeatAt > HEARTBEAT_TIMEOUT_MS {
          Kill(pid);
          continue;
        }
        workers := workers[pid := workers[pid].(lastPingAt := Some(now))];
      }
      forall p
        ensures p in workers <==> p in Swept(old(workers), connected, now)
        ensures p in workers ==> workers[p] == Swept(old(workers), connected, now)[p]
      {
        assert p !in pids;
      }
      assert workers == Swept(old(workers), connected, now);
    }
  }

  class BotStateService {
    var workerStates: map<int, seq<string>>
    var stoppedBots: set<string>

    constructor ()
      ensures workerStates == map[] && stoppedBots == {}
    {
      workerStates, stoppedBots := map[], {};
    }

    method Absorb(pid: int, names: seq<string>)
      modifies this
      ensures workerStates == old(workerStates)[pid := names]
      ensures stoppedBots == set name | name in old(stoppedBots) && name !in names
    {
      workerStates := workerStates[pid := names];
      var i := 0;
      while i < |names|
        invariant 0 <= i <= |names| && workerStates == old(workerStates)[pid := names]
        invariant stoppedBots == set name | name in old(stoppedBots) && name !in names[..i]
      {
        stoppedBots := stoppedBots - {names[i]};
        i := i + 1;
      }
      assert names[..i] == names;
    }

    method RemoveWorker(pid: int)
      modifies this
      ensures workerStates == old(workerStates) - {pid}
      ensures stoppedBots == old(stoppedBots) + Reported(old(workerStates), {pid})
    {
      if pid in workerStates {
        var bots := workerStates[pid];
        var i := 0;
        while i < |bots|
          invariant 0 <= i <= |bots| && workerStates == old(workerStates)
          invariant stoppedBots == old(stoppedBots) + set name | name in bots[..i]
        {
          stoppedBots := stoppedBots + {bots[i]};
          i := i + 1;
        }
        assert bots[..i] == bots;
      }
      workerStates := workerStates - {pid};
    }
  }

  class BotOrchestrator {
    const pool: WorkerPool
    const botState: BotStateService
    var assignments: map<string, Assignment>
    var recentAssignments: map<string, Assignment>

    constructor (pool: WorkerPool, botState: BotStateService)
      requires pool.workers == map[] && pool.alive == {}
      requires botState.workerStates == map[] && botState.stoppedBots == {}
      ensures View() == Empty && this.pool == pool && this.botState == botState
    {
      this.pool, this.botState := pool, botState;
      assignments, recentAssignments := map[], map[];
    }

    ghost function View(): Fleet
      reads this, pool, botState
    {
      Fleet(assignments, recentAssignments, pool.workers, botState.workerStates, botState.stoppedBots, pool.alive)
    }

    method AssignChunk(chunk: seq<string>, pid: int, serverId: string, batchId: string)
      modifies this
      ensures View() == AssignAll(old(View()), chunk, Assignment(pid, serverId, batchId))
    {
      var assignment := Assignment(pid, serverId, batchId);
      var i := 0;
      while i < |chunk|
        invariant 0 <= i <= |chunk|
        invariant assignments == old(assignments) + (map name | name in chunk[..i] :: assignment)
        invariant recentAssignments == map name | name in old(recentAssignments) && name !in chunk[..i]
                    :: old(recentAssignments)[name]
      {
        assert chunk[..i + 1] == chunk[..i] + [chunk[i]];
        assignments := assignments[chunk[i] := assignment];
        recentAssignments := recentAssignments - {chunk[i]};
        i := i + 1;
      }
      assert chunk[..i] == chunk;
    }

    /** `pids`: the process ids the forks will get. The batch is created and the model's event for it is possible. */
    method CreateBotBatch(namePrefix: string, count: int, serverId: string, batchId: string, now: int, pids: seq<int>)
      returns (createdNames: seq<string>, ghost chunks: seq<seq<string>>)
      requires |pids| >= count
      requires forall i :: 0 <= i < |pids| ==> pids[i] !in pool.alive
      requires forall i, j :: 0 <= i < j < |pids| ==> pids[i] != pids[j]
      modifies this, pool
      ensures |chunks| <= |pids| && Possible(old(View()), CreateBatch(chunks, pids[..|chunks|], now, serverId, batchId))
      ensures View() == Step(old(View()), CreateBatch(chunks, pids[..|chunks|], now, serverId, batchId))
      ensures Flatten(chunks) == createdNames && |createdNames| == Max(count, 0)
      ensures forall i, j :: 0 <= i < j < |createdNames| ==> createdNames[i] != createdNames[j]
      ensures forall i :: 0 <= i < |createdNames| ==> createdNames[i] == BotName(BasePrefix(namePrefix), i)
      ensures Full(chunks)
      ensures Batched(old(View()), View(), createdNames, pids[..|chunks|], serverId, batchId)
      ensures WorkersAdded(old(View()), View(), pids[..|chunks|], now)
    {
      createdNames := BuildBotNames(namePrefix, count);
      var parts := Chunk(createdNames, MAX_BOTS_PER_WORKER);
      chunks := parts;
      ChunkCount(parts);
      CreateOnWorkers(parts, serverId, batchId, now, pids[..|parts|]);
      BatchIsAssigned(old(View()), parts, pids[..|parts|], now, serverId, batchId);
    }

    /** Each chunk goes to a worker of its own. */
    method CreateOnWorkers(parts: seq<seq<string>>, serverId: string, batchId: string, now: int, pids: seq<int>)
      requires |pids| == |parts|
      modifies this, pool
      ensures View() == CreateChunks(old(View()), parts, pids, now, serverId, batchId)
    {
      var i := 0;
      while i < |parts|
        invariant 0 <= i <= |parts|
        invariant View() == CreateChunks(old(View()), parts[..i], pids[..i], now, serverId, batchId)
      {
        assert parts[..i + 1][..i] == parts[..i] && pids[..i + 1][..i] == pids[..i];
        pool.Spawn(pids[i], now);
        AssignChunk(parts[i], pids[i], serverId, batchId);
        i := i + 1;
      }
      assert parts[..i] == parts && pids[..i] == pids;
    }

    /** The names per worker, as lists in the order given; names without assignment are skipped. */
    method GroupByWorker(names: seq<string>) returns (byWorker: map<int, seq<string>>)
      ensures byWorker.Keys == Touched(View(), names)
      ensures forall pid, name :: pid in byWorker ==>
        (name in byWorker[pid] <==> name in names && name in assignments && assignments[name].workerPid == pid)
    {
      byWorker := map[];
      var i := 0;
      while i < |names|
        invariant 0 <= i <= |names|
        invariant byWorker.Keys == Touched(View(), names[..i])
        invariant forall pid, name :: pid in byWorker ==>
          (name in byWorker[pid] <==> name in names[..i] && name in assignments && assignments[name].workerPid == pid)
      {
        var name := names[i];
        assert names[..i + 1] == names[..i] + [name];
        if name in assignments {
          var pid := assignments[name].workerPid;
          var list := if pid in byWorker then byWorker[pid] else [];
          byWorker := byWorker[pid := list + [name]];
        }
        i := i + 1;
      }
      assert names[..i] == names;
    }

    method MoveToRecent(botNames: seq<string>)
      modifies this
      ensures assignments == old(assignments) - (set name | name in botNames)
      ensures recentAssignments == old(recentAssignments) +
        map name | name in botNames && name in old(assignments) :: old(assignments)[name]
    {
      var i := 0;
      while i < |botNames|
        invariant 0 <= i <= |botNames|
        invariant assignments == old(assignments) - (set name | name in botNames[..i])
        invariant recentAssignments == old(recentAssignments) +
          map name | name in botNames[..i] && name in old(assignments) :: old(assignments)[name]
      {
        var n := botNames[i];
        assert botNames[..i + 1] == botNames[..i] + [n];
        if n in assignments {
          recentAssignments := recentAssignments[n := assignments[n]];
        }
        assignments := assignments - {n};
        i := i + 1;
      }
      assert botNames[..i] == botNames;
    }

    method StopOnWorker(pid: int, botNames: seq<string>)
      modifies this, pool, botState
      ensures View() == StopOn(old(View()), botNames, {pid})
      requires forall name :: name in botNames ==> name in assignments && assignments[name].workerPid == pid
    {
      MoveToRecent(botNames);
      var remaining := set name | name in assignments && assignments[name].workerPid == pid;
      assert remaining == OnWorker(assignments, pid);
      if remaining == {} {
        pool.Kill(pid);
        botState.RemoveWorker(pid);
      }
      StopOnOne(old(View()), View(), botNames, pid);
    }

    method StopBots(names: seq<string>)
      modifies this, pool, botState
      ensures View() == Model.StopBots(old(View()), names)
    {
      var byWorker := GroupByWorker(names);
      var pids := byWorker.Keys;
      ghost var done := {};
      StopOnNone(View(), names);
      while pids != {}
        invariant done + pids == byWorker.Keys && done !! pids
        invariant View() == StopOn(old(View()), names, done)
        decreases pids
      {
        HasMember(pids);
        var pid :| pid in pids;
        ghost var before := View();
        StopOnWorker(pid, byWorker[pid]);
        StopOnMore(old(View()), before, names, byWorker[pid], done, pid);
        pids := pids - {pid};
        done := done + {pid};
      }
    }

    method StopAll()
      modifies this, pool, botState
      ensures View() == Model.StopAll(old(View()))
    {
      var pids: set<int> := pool.workers.Keys;
      pool.KillAll();
      assignments := map[];
      ghost var done := {};
      while pids != {}
        invariant done + pids == old(pool.workers).Keys && done !! pids
        invariant assignments == map[] && recentAssignments == old(recentAssignments)
        invariant pool.workers == map[] && pool.alive == old(pool.alive)
        invariant botState.workerStates == old(botState.workerStates) - done
        invariant botState.stoppedBots == old(botState.stoppedBots) + Reported(old(botState.workerStates), done)
        decreases pids
      {
        HasMember(pids);
        var pid :| pid in pids;
        ReportedUnion(old(botState.workerStates), done, {pid});
        ReportedWithout(old(botState.workerStates), done, {pid});
        botState.RemoveWorker(pid);
        pids := pids - {pid};
        done := done + {pid};
      }
    }

    method OnModuleDestroy()
      modifies this, pool
      ensures View() == Step(old(View()), Shutdown)
    {
      pool.KillAll();
      assignments := map[];
    }

    method HandleWorkerExit(pid: int)
      modifies this, pool, botState
      ensures View() == Exit(old(View()), pid)
    {
      pool.ChildExited(pid);
      botState.RemoveWorker(pid);
      assignments := DropWorker(assignments, pid);
      recentAssignments := DropWorker(recentAssignments, pid);
    }

    static method DropWorker(m: map<string, Assignment>, pid: int) returns (r: map<string, Assignment>)
      ensures r == Elsewhere(m, pid)
    {
      r := m;
      var names := m.Keys;
      while names != {}
        invariant names <= m.Keys
        invariant r == map name | name in m && (name in names || m[name].workerPid != pid) :: m[name]
        decreases names
      {
        var name :| name in names;
        if r[name].workerPid == pid {
          r := r - {name};
        }
        names := names - {name};
      }
    }
  }

  lemma {:induction false} ChunkCount(chunks: seq<seq<string>>)
    requires forall i :: 0 <= i < |chunks| ==> 0 < |chunks[i]|
    ensures |chunks| <= |Flatten(chunks)|
  {
    if chunks != [] {
      ChunkCount(chunks[..|chunks| - 1]);
    }
  }

  lemma StopOnNone(f: Fleet, names: seq<string>)
    ensures StopOn(f, names, {}) == f
  {
    assert Reported(f.reports, {}) == {};
  }

  lemma ReportedUnion(reports: map<int, seq<string>>, a: set<int>, b: set<int>)
    ensures Reported(reports, a + b) == Reported(reports, a) + Reported(reports, b)
  {
  }

  lemma ReportedWithout(reports: map<int, seq<string>>, a: set<int>, b: set<int>)
    requires a !! b
    ensures Reported(reports - a, b) == Reported(reports, b)
  {
    forall name | name in Reported(reports, b)
      ensures name in Reported(reports - a, b)
    {
      var pid :| pid in b && pid in reports && name in reports[pid];
      assert pid in reports - a && name in (reports - a)[pid];
    }
  }

  lemma HasMember(s: set<int>)
    ensures s == {} || exists x :: x in s
  {
    if !exists x :: x in s {
      assert s == {};
    }
  }

  function Gone(f: Fleet, names: seq<string>, pids: set<int>): map<string, Assignment> {
    map name | name in names && name in f.assignments && f.assignments[name].workerPid in pids :: f.assignments[name]
  }

  function Killed(kept: map<string, Assignment>, pids: set<int>): set<int> {
    set pid | pid in pids && OnWorker(kept, pid) == {}
  }

  lemma StopOnIs(f: Fleet, names: seq<string>, pids: set<int>)
    ensures var gone := Gone(f, names, pids);
            var kept := f.assignments - gone.Keys;
            var killed := Killed(kept, pids);
            StopOn(f, names, pids) == f.(assignments := kept, recent := f.recent + gone,
              workers := f.workers - killed, reports := f.reports - killed,
              stopped := f.stopped + Reported(f.reports, killed))
  {
  }

  /** The loop body's effect is that of stopping bots of one worker. */
  lemma StopOnOne(f: Fleet, f': Fleet, botNames: seq<string>, pid: int)
    requires forall name :: name in botNames ==> name in f.assignments && f.assignments[name].workerPid == pid
    requires f'.assignments == f.assignments - (set name | name in botNames)
    requires f'.recent == f.recent + map name | name in botNames && name in f.assignments :: f.assignments[name]
    requires f'.alive == f.alive
    requires if OnWorker(f'.assignments, pid) == {} then
               && f'.workers == f.workers - {pid} && f'.reports == f.reports - {pid}
               && f'.stopped == f.stopped + Reported(f.reports, {pid})
             else f'.workers == f.workers && f'.reports == f.reports && f'.stopped == f.stopped
    ensures f' == StopOn(f, botNames, {pid})
  {
    var gone := Gone(f, botNames, {pid});
    assert gone == map name | name in botNames && name in f.assignments :: f.assignments[name];
    assert gone.Keys == set name | name in botNames;
    var killed := Killed(f'.assignments, {pid});
    assert killed == if OnWorker(f'.assignments, pid) == {} then {pid} else {};
    assert Reported(f.reports, {}) == {};
    StopOnIs(f, botNames, {pid});
  }

  /** Stopping bots elsewhere leaves the bots of a worker as they are. */
  lemma OtherWorkersKeep(f: Fleet, names: seq<string>, pids: set<int>, pid: int)
    requires pid !in pids
    ensures OnWorker(StopOn(f, names, pids).assignments, pid) == OnWorker(f.assignments, pid)
  {
  }

  lemma GoneInSteps(f: Fleet, f1: Fleet, names: seq<string>, botNames: seq<string>, done: set<int>, pid: int)
    requires pid !in done && f1.assignments == f.assignments - Gone(f, names, done).Keys
    requires forall name :: name in botNames <==>
               name in names && name in f.assignments && f.assignments[name].workerPid == pid
    ensures Gone(f, names, done + {pid}) == Gone(f, names, done) + Gone(f1, botNames, {pid})
  {
    var a, b, c := Gone(f, names, done), Gone(f1, botNames, {pid}), Gone(f, names, done + {pid});
    forall name | name in c
      ensures name in a.Keys + b.Keys
    {
      if f.assignments[name].workerPid == pid {
        assert name !in a;
      }
    }
  }

  lemma KilledInSteps(f: Fleet, f1: Fleet, kept: map<string, Assignment>, botNames: seq<string>, done: set<int>, pid: int)
    requires pid !in done && kept == StopOn(f1, botNames, {pid}).assignments
    ensures Killed(kept, done + {pid}) == Killed(f1.assignments, done) + Killed(kept, {pid})
    ensures Killed(f1.assignments, done) !! Killed(kept, {pid})
  {
    forall p | p in done
      ensures OnWorker(f1.assignments, p) == OnWorker(kept, p)
    {
      OtherWorkersKeep(f1, botNames, {pid}, p);
    }
  }

  /** Workers can be handled one after the other: none is affected by the stops on the others. */
  lemma StopOnMore(f: Fleet, f1: Fleet, names: seq<string>, botNames: seq<string>, done: set<int>, pid: int)
    requires pid !in done && f1 == StopOn(f, names, done)
    requires forall name :: name in botNames <==>
               name in names && name in f.assignments && f.assignments[name].workerPid == pid
    ensures StopOn(f1, botNames, {pid}) == StopOn(f, names, done + {pid})
  {
    StopOnIs(f, names, done);
    GoneInSteps(f, f1, names, botNames, done, pid);
    StopOnIs(f1, botNames, {pid});
    StopOnIs(f, names, done + {pid});
    var kept := f1.assignments - Gone(f1, botNames, {pid}).Keys;
    assert kept == f.assignments - Gone(f, names, done + {pid}).Keys;
    KilledInSteps(f, f1, kept, botNames, done, pid);
    var k1, k2 := Killed(f1.assignments, done), Killed(kept, {pid});
    ReportedUnion(f.reports, k1, k2);
    ReportedWithout(f.reports, k1, k2);
    StopsCompose(f, f1, Gone(f, names, done), Gone(f1, botNames, {pid}), k1, k2);
  }

  /** Removing and adding in two steps is removing and adding at once. */
  lemma StopsCompose(f: Fleet, f1: Fleet, a: map<string, Assignment>, b: map<string, Assignment>, k1: set<int>, k2: set<int>)
    requires f1.workers == f.workers - k1 && f1.reports == f.reports - k1 && f1.recent == f.recent + a
    ensures f1.workers - k2 == f.workers - (k1 + k2)
    ensures f1.reports - k2 == f.reports - (k1 + k2)
    ensures f1.recent + b == f.recent + (a + b)
  {
  }
}
