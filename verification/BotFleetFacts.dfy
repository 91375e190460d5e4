/**
 What each event does to the assignment of one bot and to one worker process, and what a batch
 leaves behind: which bot runs where, and what stopping the batch again undoes.
 */
module BotFleetFacts {
  import opened Collections
  import opened BotNames
  import opened BotFleet

  function Find<K, V>(m: map<K, V>, k: K): Option<V> {
    if k in m then Some(m[k]) else None
  }

  // A batch

  ghost predicate Disjoint(chunks: seq<seq<string>>) {
    forall i, j, name :: 0 <= i < j < |chunks| && name in chunks[i] ==> name !in chunks[j]
  }

  predicate Names(chunks: seq<seq<string>>, name: string) {
    exists j :: 0 <= j < |chunks| && name in chunks[j]
  }

  /** A new worker: heard of at `now`, never pinged, not yet ready. */
  function NewWorker(now: int): Worker {
    Worker(now, None, false, false)
  }

  /** The bots of chunk `j` run on process `j`, and are no recent ones; all other bots stay as they were. */
  ghost predicate BotsAssigned(f: Fleet, f': Fleet, chunks: seq<seq<string>>, pids: seq<int>, serverId: string, batchId: string)
    requires |pids| == |chunks|
  {
    && (forall j, name :: 0 <= j < |chunks| && name in chunks[j] ==>
          && Find(f'.assignments, name) == Some(Assignment(pids[j], serverId, batchId))
          && Find(f'.recent, name) == None)
    && (forall name :: !Names(chunks, name) ==>
          && Find(f'.assignments, name) == Find(f.assignments, name)
          && Find(f'.recent, name) == Find(f.recent, name))
  }

  ghost predicate WorkersAdded(f: Fleet, f': Fleet, pids: seq<int>, now: int) {
    && (forall pid :: Find(f'.workers, pid) == if pid in pids then Some(NewWorker(now)) else Find(f.workers, pid))
    && (forall pid :: pid in f'.alive <==> pid in f.alive || pid in pids)
    && f'.reports == f.reports && f'.stopped == f.stopped
  }

  lemma {:induction false} ChunksAssigned(f: Fleet, chunks: seq<seq<string>>, pids: seq<int>, now: int, serverId: string, batchId: string)
    requires |pids| == |chunks| && Disjoint(chunks)
    ensures BotsAssigned(f, CreateChunks(f, chunks, pids, now, serverId, batchId), chunks, pids, serverId, batchId)
    decreases chunks
  {
    if chunks != [] {
      var n := |chunks| - 1;
      var before := CreateChunks(f, chunks[..n], pids[..n], now, serverId, batchId);
      assert forall j :: 0 <= j < n ==> chunks[..n][j] == chunks[j] && pids[..n][j] == pids[j];
      ChunksAssigned(f, chunks[..n], pids[..n], now, serverId, batchId);
      LastChunkAssigned(f, before, chunks, pids, now, serverId, batchId);
    }
  }

  lemma AssignEach(f: Fleet, names: seq<string>, a: Assignment, name: string)
    ensures var f' := AssignAll(f, names, a);
            && Find(f'.assignments, name) == (if name in names then Some(a) else Find(f.assignments, name))
            && Find(f'.recent, name) == (if name in names then None else Find(f.recent, name))
  {
  }

  lemma LastChunkAssigned(f: Fleet, before: Fleet, chunks: seq<seq<string>>, pids: seq<int>, now: int, serverId: string, batchId: string)
    requires |pids| == |chunks| > 0 && Disjoint(chunks)
    requires BotsAssigned(f, before, chunks[..|chunks| - 1], pids[..|chunks| - 1], serverId, batchId)
    ensures var n := |chunks| - 1;
            BotsAssigned(f, AssignAll(Spawn(before, pids[n], now), chunks[n], Assignment(pids[n], serverId, batchId)),
                         chunks, pids, serverId, batchId)
  {
    var n := |chunks| - 1;
    var f' := AssignAll(Spawn(before, pids[n], now), chunks[n], Assignment(pids[n], serverId, batchId));
    forall j, name | 0 <= j < |chunks| && name in chunks[j]
      ensures Find(f'.assignments, name) == Some(Assignment(pids[j], serverId, batchId)) && Find(f'.recent, name) == None
    {
      AssignEach(Spawn(before, pids[n], now), chunks[n], Assignment(pids[n], serverId, batchId), name);
      if j < n {
        assert name in chunks[..n][j] && name !in chunks[n] && pids[..n][j] == pids[j];
        assert Find(before.recent, name) == None;
      }
    }
    forall name | !Names(chunks, name)
      ensures Find(f'.assignments, name) == Find(f.assignments, name) && Find(f'.recent, name) == Find(f.recent, name)
    {
      AssignEach(Spawn(before, pids[n], now), chunks[n], Assignment(pids[n], serverId, batchId), name);
      assert name !in chunks[n];
      assert !Names(chunks[..n], name);
    }
  }

  lemma {:induction false} ChunksSpawn(f: Fleet, chunks: seq<seq<string>>, pids: seq<int>, now: int, serverId: string, batchId: string)
    requires |pids| == |chunks|
    ensures WorkersAdded(f, CreateChunks(f, chunks, pids, now, serverId, batchId), pids, now)
    decreases chunks
  {
    if chunks != [] {
      var n := |chunks| - 1;
      ChunksSpawn(f, chunks[..n], pids[..n], now, serverId, batchId);
      assert pids == pids[..n] + [pids[n]];
    }
  }

  // By the number of the bot

  /** All chunks but the last are full, and none is empty. */
  ghost predicate Full(chunks: seq<seq<string>>) {
    && (forall j :: 0 <= j < |chunks| ==> 0 < |chunks[j]| <= 50)
    && (forall j :: 0 <= j < |chunks| - 1 ==> |chunks[j]| == 50)
  }

  lemma {:induction false} PlaceOf(chunks: seq<seq<string>>, i: nat)
    requires Full(chunks) && i < |Flatten(chunks)|
    ensures |Flatten(chunks)| <= 50 * |chunks|
    ensures i / 50 < |chunks| && i % 50 < |chunks[i / 50]| && Flatten(chunks)[i] == chunks[i / 50][i % 50]
    decreases |chunks|
  {
    var n := |chunks| - 1;
    var front := chunks[..n];
    FullLength(front);
    if i < |Flatten(front)| {
      PlaceOf(front, i);
    } else {
      assert i == 50 * n + (i - 50 * n) && 0 <= i - 50 * n < 50;
      assert i / 50 == n;
    }
  }

  lemma {:induction false} FullLength(chunks: seq<seq<string>>)
    requires forall j :: 0 <= j < |chunks| ==> |chunks[j]| == 50
    ensures |Flatten(chunks)| == 50 * |chunks|
    decreases |chunks|
  {
    if chunks != [] {
      FullLength(chunks[..|chunks| - 1]);
    }
  }

  lemma {:induction false} NumberOf(chunks: seq<seq<string>>, j: nat, k: nat)
    requires Full(chunks) && j < |chunks| && k < |chunks[j]|
    ensures 50 * j + k < |Flatten(chunks)| && Flatten(chunks)[50 * j + k] == chunks[j][k]
    decreases |chunks|
  {
    var n := |chunks| - 1;
    var front := chunks[..n];
    FullLength(front);
    if j < n {
      NumberOf(front, j, k);
    }
  }

  ghost predicate AllDistinct(names: seq<string>) {
    forall i, j :: 0 <= i < j < |names| ==> names[i] != names[j]
  }

  lemma DistinctNamesDisjoint(chunks: seq<seq<string>>)
    requires Full(chunks) && AllDistinct(Flatten(chunks))
    ensures Disjoint(chunks)
    ensures forall name :: name in Flatten(chunks) <==> Names(chunks, name)
  {
    forall i, j, name | 0 <= i < j < |chunks| && name in chunks[i]
      ensures name !in chunks[j]
    {
      var k :| 0 <= k < |chunks[i]| && chunks[i][k] == name;
      NumberOf(chunks, i, k);
      if name in chunks[j] {
        var l :| 0 <= l < |chunks[j]| && chunks[j][l] == name;
        NumberOf(chunks, j, l);
      }
    }
    forall name: string
      ensures name in Flatten(chunks) <==> Names(chunks, name)
    {
      if name in Flatten(chunks) {
        var i :| 0 <= i < |Flatten(chunks)| && Flatten(chunks)[i] == name;
        PlaceOf(chunks, i);
      }
      if j :| 0 <= j < |chunks| && name in chunks[j] {
        var k :| 0 <= k < |chunks[j]| && chunks[j][k] == name;
        NumberOf(chunks, j, k);
      }
    }
  }

  /** Bot number `i` of a batch runs on process `i / 50`; every other bot stays where it was. */
  ghost predicate Batched(f: Fleet, f': Fleet, names: seq<string>, pids: seq<int>, serverId: string, batchId: string) {
    && |names| <= 50 * |pids|
    && (forall i :: 0 <= i < |names| ==>
          && Find(f'.assignments, names[i]) == Some(Assignment(pids[i / 50], serverId, batchId))
          && Find(f'.recent, names[i]) == None)
    && (forall name :: name !in names ==>
          && Find(f'.assignments, name) == Find(f.assignments, name)
          && Find(f'.recent, name) == Find(f.recent, name))
  }

  lemma BatchIsAssigned(f: Fleet, chunks: seq<seq<string>>, pids: seq<int>, now: int, serverId: string, batchId: string)
    requires |pids| == |chunks| && Full(chunks) && AllDistinct(Flatten(chunks))
    ensures var f' := CreateChunks(f, chunks, pids, now, serverId, batchId);
            Batched(f, f', Flatten(chunks), pids, serverId, batchId) && WorkersAdded(f, f', pids, now)
  {
    var names := Flatten(chunks);
    DistinctNamesDisjoint(chunks);
    ChunksAssigned(f, chunks, pids, now, serverId, batchId);
    ChunksSpawn(f, chunks, pids, now, serverId, batchId);
    BatchLength(chunks);
    forall i | 0 <= i < |names|
      ensures i / 50 < |chunks| && names[i] in chunks[i / 50]
    {
      PlaceOf(chunks, i);
    }
  }

  lemma BatchLength(chunks: seq<seq<string>>)
    requires Full(chunks)
    ensures |Flatten(chunks)| <= 50 * |chunks|
  {
    if Flatten(chunks) != [] {
      PlaceOf(chunks, 0);
    }
  }

  // A batch and its stop

  /** The processes of a batch are those of its bots. */
  lemma TouchedByBatch(f: Fleet, names: seq<string>, chunks: seq<seq<string>>, pids: seq<int>, serverId: string, batchId: string)
    requires |pids| == |chunks| && Full(chunks) && AllDistinct(Flatten(chunks)) && names == Flatten(chunks)
    requires forall j, name :: 0 <= j < |chunks| && name in chunks[j] ==>
               Find(f.assignments, name) == Some(Assignment(pids[j], serverId, batchId))
    ensures forall pid :: pid in Touched(f, names) <==> pid in pids
  {
    DistinctNamesDisjoint(chunks);
    forall pid: int
      ensures pid in Touched(f, names) <==> pid in pids
    {
      if j :| 0 <= j < |pids| && pids[j] == pid {
        var name := chunks[j][0];
        assert name in chunks[j] && Find(f.assignments, name) == Some(Assignment(pid, serverId, batchId));
        assert Names(chunks, name);
      }
      if pid in Touched(f, names) {
        var name :| name in names && name in f.assignments && f.assignments[name].workerPid == pid;
        assert Names(chunks, name);
        var j :| 0 <= j < |chunks| && name in chunks[j];
        assert Find(f.assignments, name) == Some(Assignment(pids[j], serverId, batchId));
      }
    }
  }

  /**
   Stopping all bots of a batch right after it was created kills exactly the processes that were
   spawned for it, and leaves every other bot and process as it was before the batch.
   */
  lemma StopUndoesBatch(f: Fleet, chunks: seq<seq<string>>, pids: seq<int>, now: int, serverId: string, batchId: string)
    requires Inv(f) && Possible(f, CreateBatch(chunks, pids, now, serverId, batchId))
    requires Full(chunks) && AllDistinct(Flatten(chunks))
    ensures var names := Flatten(chunks);
            var f' := StopBots(CreateChunks(f, chunks, pids, now, serverId, batchId), names);
            f'.workers == f.workers && Unbatched(f, f', names, pids, serverId, batchId)
  {
    var names, f1 := Flatten(chunks), CreateChunks(f, chunks, pids, now, serverId, batchId);
    BatchIsAssigned(f, chunks, pids, now, serverId, batchId);
    DistinctNamesDisjoint(chunks);
    ChunksAssigned(f, chunks, pids, now, serverId, batchId);
    TouchedByBatch(f1, names, chunks, pids, serverId, batchId);
    StoppedBatch(f, f1, names, pids, serverId, batchId);
    KilledBatch(f, f1, names, pids, now);
  }

  /** The bots of a batch are recent ones now, with the assignment the batch gave them. */
  ghost predicate Unbatched(f: Fleet, f': Fleet, names: seq<string>, pids: seq<int>, serverId: string, batchId: string) {
    && |names| <= 50 * |pids|
    && (forall i :: 0 <= i < |names| ==>
          && Find(f'.assignments, names[i]) == None
          && Find(f'.recent, names[i]) == Some(Assignment(pids[i / 50], serverId, batchId)))
    && (forall name :: name !in names ==>
          && Find(f'.assignments, name) == Find(f.assignments, name)
          && Find(f'.recent, name) == Find(f.recent, name))
  }

  lemma StoppedBatch(f: Fleet, f1: Fleet, names: seq<string>, pids: seq<int>, serverId: string, batchId: string)
    requires Batched(f, f1, names, pids, serverId, batchId)
    ensures Unbatched(f, StopBots(f1, names), names, pids, serverId, batchId)
  {
    var f' := StopBots(f1, names);
    forall name: string
      ensures Find(f'.assignments, name) == (if name in names then None else Find(f1.assignments, name))
      ensures Find(f'.recent, name) == (if name in names && name in f1.assignments then Find(f1.assignments, name)
                                        else Find(f1.recent, name))
    {
      StopEach(f1, names, name);
    }
  }

  lemma KilledBatch(f: Fleet, f1: Fleet, names: seq<string>, pids: seq<int>, now: int)
    requires Inv(f) && (forall i :: 0 <= i < |pids| ==> pids[i] !in f.alive)
    requires WorkersAdded(f, f1, pids, now) && forall pid :: pid in Touched(f1, names) <==> pid in pids
    requires forall name :: name !in names ==> Find(f1.assignments, name) == Find(f.assignments, name)
    ensures StopBots(f1, names).workers == f.workers
  {
    var f' := StopBots(f1, names);
    forall pid: int
      ensures Find(f'.workers, pid) == Find(f.workers, pid)
    {
      assert Find(f1.workers, pid) == if pid in pids then Some(NewWorker(now)) else Find(f.workers, pid);
      if pid in pids {
        NoneLeft(f, f1, f', names, pid);
      }
    }
    SameEntries(f'.workers, f.workers);
  }

  /** No bot that was there before runs on a new process. */
  lemma NoneLeft(f: Fleet, f1: Fleet, f': Fleet, names: seq<string>, pid: int)
    requires Inv(f) && pid !in f.alive && f' == StopBots(f1, names)
    requires forall name :: name !in names ==> Find(f1.assignments, name) == Find(f.assignments, name)
    ensures OnWorker(f'.assignments, pid) == {} && pid !in f.workers
  {
    forall name | name in f'.assignments
      ensures f'.assignments[name].workerPid != pid
    {
      StopEach(f1, names, name);
      assert Find(f1.assignments, name) == Find(f.assignments, name);
    }
  }

  lemma SameEntries<K, V>(m: map<K, V>, m': map<K, V>)
    requires forall k :: Find(m, k) == Find(m', k)
    ensures m == m'
  {
    assert forall k :: k in m <==> k in m' by {
      forall k: K
        ensures k in m <==> k in m'
      {
        assert Find(m, k) == Find(m', k);
      }
    }
    assert forall k :: k in m ==> m[k] == m'[k] by {
      forall k | k in m
        ensures m[k] == m'[k]
      {
        assert Find(m, k) == Find(m', k);
      }
    }
  }

  // One bot, event by event

  /** A stop takes a named bot's assignment to the recent ones and touches no other bot. */
  lemma StopEach(f: Fleet, names: seq<string>, name: string)
    ensures var f' := StopBots(f, names);
            && Find(f'.assignments, name) == (if name in names then None else Find(f.assignments, name))
            && Find(f'.recent, name) == (if name in names && name in f.assignments then Find(f.assignments, name)
                                         else Find(f.recent, name))
  {
    if name in names && name in f.assignments {
      assert f.assignments[name].workerPid in Touched(f, names);
    }
  }

  /** What a batch assigns to a name: the process of the last of its chunks that has it. */
  function Assigned(chunks: seq<seq<string>>, pids: seq<int>, serverId: string, batchId: string, name: string): Option<Assignment>
    requires |pids| == |chunks|
    decreases |chunks|
  {
    if chunks == [] then None
    else
      var n := |chunks| - 1;
      if name in chunks[n] then Some(Assignment(pids[n], serverId, batchId))
      else Assigned(chunks[..n], pids[..n], serverId, batchId, name)
  }

  lemma {:induction false} CreateEach(f: Fleet, chunks: seq<seq<string>>, pids: seq<int>, now: int, serverId: string,
                                      batchId: string, name: string)
    requires |pids| == |chunks|
    ensures var f', a := CreateChunks(f, chunks, pids, now, serverId, batchId), Assigned(chunks, pids, serverId, batchId, name);
            && Find(f'.assignments, name) == (if a.Some? then a else Find(f.assignments, name))
            && Find(f'.recent, name) == (if a.Some? then None else Find(f.recent, name))
    decreases |chunks|
  {
    if chunks != [] {
      var n := |chunks| - 1;
      var before := CreateChunks(f, chunks[..n], pids[..n], now, serverId, batchId);
      CreateEach(f, chunks[..n], pids[..n], now, serverId, batchId, name);
      AssignEach(Spawn(before, pids[n], now), chunks[n], Assignment(pids[n], serverId, batchId), name);
    }
  }

  /** The assignment of one bot after an event, from what it was before. */
  function AssignmentAfter(a: Option<Assignment>, e: Event, name: string): Option<Assignment>
    requires e.CreateBatch? ==> |e.pids| == |e.chunks|
  {
    match e
    case CreateBatch(chunks, pids, _, serverId, batchId) =>
      var given := Assigned(chunks, pids, serverId, batchId, name);
      if given.Some? then given else a
    case Stop(names) => if name in names then None else a
    case StopEverything => None
    case Shutdown => None
    case Exited(pid) => if a.Some? && a.value.workerPid == pid then None else a
    case _ => a
  }

  lemma AssignmentStep(f: Fleet, e: Event, name: string)
    requires Possible(f, e)
    ensures Find(Step(f, e).assignments, name) == AssignmentAfter(Find(f.assignments, name), e, name)
  {
    match e
    case CreateBatch(chunks, pids, now, serverId, batchId) => CreateEach(f, chunks, pids, now, serverId, batchId, name);
    case Stop(names) => StopEach(f, names, name);
    case _ =>
  }

  function AssignmentIn(a: Option<Assignment>, f: Fleet, es: seq<Event>, name: string): Option<Assignment>
    requires AllPossible(f, es)
    decreases |es|
  {
    if es == [] then a else AssignmentIn(AssignmentAfter(a, es[0], name), Step(f, es[0]), es[1..], name)
  }

  /**
   In every run a bot is assigned to the process of the last batch that named it, unless it was
   stopped, everything was, or that process exited since.
   */
  lemma {:induction false} AssignmentFollowsEvents(f: Fleet, es: seq<Event>, name: string)
    requires AllPossible(f, es)
    ensures Find(Run(f, es).assignments, name) == AssignmentIn(Find(f.assignments, name), f, es, name)
    decreases |es|
  {
    if es != [] {
      AssignmentStep(f, es[0], name);
      AssignmentFollowsEvents(Step(f, es[0]), es[1..], name);
    }
  }

  // One process, event by event

  /** When a process last gave a sign of life: spawned, or heard of while it was a worker. */
  function SignAfter(sign: Option<int>, e: Event, pid: int): Option<int> {
    match e
    case CreateBatch(_, pids, now, _, _) => if pid in pids then Some(now) else sign
    case Pong(p, now) => if p == pid && sign.Some? then Some(now) else sign
    case _ => sign
  }

  ghost predicate HeardOf(f: Fleet, pid: int, sign: Option<int>) {
    pid in f.workers ==> sign == Some(f.workers[pid].lastHeartbeatAt)
  }

  lemma HeardStep(f: Fleet, e: Event, pid: int, sign: Option<int>)
    requires Possible(f, e) && HeardOf(f, pid, sign)
    ensures HeardOf(Step(f, e), pid, SignAfter(sign, e, pid))
  {
    if e.CreateBatch? {
      ChunksSpawn(f, e.chunks, e.pids, e.now, e.serverId, e.batchId);
      var f' := Step(f, e);
      assert Find(f'.workers, pid) == if pid in e.pids then Some(NewWorker(e.now)) else Find(f.workers, pid);
    }
  }

  function LastSign(es: seq<Event>, sign: Option<int>, pid: int): Option<int> {
    if es == [] then sign else LastSign(es[1..], SignAfter(sign, es[0], pid), pid)
  }

  lemma {:induction false} HeardInRun(f: Fleet, es: seq<Event>, pid: int, sign: Option<int>)
    requires AllPossible(f, es) && HeardOf(f, pid, sign)
    ensures HeardOf(Run(f, es), pid, LastSign(es, sign, pid))
    decreases |es|
  {
    if es != [] {
      HeardStep(f, es[0], pid, sign);
      HeardInRun(Step(f, es[0]), es[1..], pid, SignAfter(sign, es[0], pid));
    }
  }

  /**
   In every run a sweep kills a worker if and only if it is connected and its last sign of life,
   being spawned or answering a ping, is more than 25 seconds ago. The other connected workers are
   pinged and the rest is left alone, as are all assignments.
   */
  lemma SweepKillsIff(es: seq<Event>, connected: set<int>, now: int, pid: int)
    requires AllPossible(Empty, es) && pid in Run(Empty, es).workers
    ensures var f, f' := Run(Empty, es), Step(Run(Empty, es), HeartbeatSweep(connected, now));
            var sign := LastSign(es, None, pid);
            && sign.Some?
            && (pid !in f'.workers <==> pid in connected && now - sign.value > 25_000)
            && (pid in f'.workers && pid in connected ==> f'.workers[pid] == f.workers[pid].(lastPingAt := Some(now)))
            && (pid !in connected ==> f'.workers[pid] == f.workers[pid])
            && f'.assignments == f.assignments && f'.recent == f.recent
  {
    HeardInRun(Empty, es, pid, None);
  }

  /** A stop kills the named bots' workers that are left without bots; nothing else happens to processes. */
  lemma StopEachWorker(f: Fleet, names: seq<string>, pid: int)
    ensures var f' := StopBots(f, names);
            var emptied := && (exists name :: name in names && name in f.assignments && f.assignments[name].workerPid == pid)
                           && forall name :: name in f.assignments && f.assignments[name].workerPid == pid ==> name in names;
            && Find(f'.workers, pid) == (if emptied then None else Find(f.workers, pid))
            && Find(f'.reports, pid) == (if emptied then None else Find(f.reports, pid))
            && f'.alive == f.alive
  {
    var f' := StopBots(f, names);
    forall name: string
      ensures Find(f'.assignments, name) == if name in names then None else Find(f.assignments, name)
    {
      StopEach(f, names, name);
    }
    assert forall name :: name in OnWorker(f'.assignments, pid) <==>
             name in f.assignments && f.assignments[name].workerPid == pid && name !in names by {
      forall name: string
        ensures name in OnWorker(f'.assignments, pid) <==>
                name in f.assignments && f.assignments[name].workerPid == pid && name !in names
      {
        assert Find(f'.assignments, name) == if name in names then None else Find(f.assignments, name);
      }
    }
  }

  /** A bot is known as stopped when a worker that reported it goes, until some worker reports it again. */
  lemma StoppedStep(f: Fleet, e: Event, name: string)
    requires Possible(f, e)
    ensures var went := forall pid: int :: pid in f.reports && pid !in Step(f, e).reports ==> name !in f.reports[pid];
            name in Step(f, e).stopped <==>
            if e.Report? then name in f.stopped && name !in e.names
            else name in f.stopped || !went
  {
    match e
    case CreateBatch(chunks, pids, now, serverId, batchId) => ChunksSpawn(f, chunks, pids, now, serverId, batchId);
    case _ =>
  }

  /** What a process last reported stays until it reports again or goes. */
  lemma ReportStep(f: Fleet, e: Event, pid: int)
    requires Possible(f, e)
    ensures var r, r' := Find(f.reports, pid), Find(Step(f, e).reports, pid);
            match e
            case Report(p, names) => r' == if p == pid then Some(names) else r
            case Exited(p) => r' == if p == pid then None else r
            case StopEverything => r' == if pid in f.workers then None else r
            case Stop(_) => r' == r || r' == None
            case _ => r' == r
  {
    match e
    case CreateBatch(chunks, pids, now, serverId, batchId) => ChunksSpawn(f, chunks, pids, now, serverId, batchId);
    case _ =>
  }

  /** Which processes are workers, and what is known of them, after events other than stops and sweeps. */
  lemma WorkerStep(f: Fleet, e: Event, pid: int)
    requires Possible(f, e) && !e.Stop? && !e.HeartbeatSweep?
    ensures var w, w' := Find(f.workers, pid), Find(Step(f, e).workers, pid);
            match e
            case CreateBatch(_, pids, now, _, _) => w' == if pid in pids then Some(NewWorker(now)) else w
            case Pong(p, now) =>
              w' == if p == pid && w.Some? then Some(Worker(now, w.value.lastPingAt, true, false)) else w
            case Exited(p) => w' == if p == pid then None else w
            case Report(_, _) => w' == w
            case _ => w' == None
  {
    match e
    case CreateBatch(chunks, pids, now, serverId, batchId) => ChunksSpawn(f, chunks, pids, now, serverId, batchId);
    case _ =>
  }
}
