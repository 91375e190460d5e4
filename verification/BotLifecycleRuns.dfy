/**
 Properties of whole runs of one bot. A run is any sequence of events at all: handlers of old
 sockets, late callbacks and commands may interleave freely, which covers every schedule the
 event loop can produce. Only `DisconnectIsFinalIff` restricts runs to events that are enabled.
 */
module BotLifecycleRuns {
  import opened Collections
  import opened BotLifecycle

  // Death accounting

  /** The step takes the bot from some other phase into DEAD. */
  predicate Dies(b: Bot, t: Tick) {
    !b.Is(Dead) && Step(b, t).Is(Dead)
  }

  function CountDied(log: seq<Notice>): nat {
    if log == [] then 0
    else CountDied(log[..|log| - 1]) + if log[|log| - 1] == DIED then 1 else 0
  }

  function CountDeaths(b: Bot, ticks: seq<Tick>): nat {
    if ticks == [] then 0
    else
      var before := ticks[..|ticks| - 1];
      CountDeaths(b, before) + if Dies(Run(b, before), ticks[|ticks| - 1]) then 1 else 0
  }

  lemma CountDiedSnoc(log: seq<Notice>, n: Notice)
    ensures CountDied(log + [n]) == CountDied(log) + if n == DIED then 1 else 0
  {
    assert (log + [n])[..|log|] == log;
  }

  predicate Resets(e: Event) {
    e.DisconnectCall? || e.ForceRespawnCall? || (e.Due? && e.callback.DeathRecovery?)
  }

  predicate IsCommand(e: Event) {
    e.DisconnectCall? || e.ForceRespawnCall? || e.DebugEnter? || e.DebugExit?
  }

  /** Nothing about deaths changes between `b` and `b'`. */
  ghost predicate SameDeaths(b: Bot, b': Bot) {
    && b'.DeathCount() == b.DeathCount()
    && CountDied(b'.runtime.log) == CountDied(b.runtime.log)
    && b'.deaths == b.deaths && b'.suspended == b.suspended
  }

  /** The records agree with what an observer of the phase alone sees. */
  ghost predicate Accounts(b: Bot, b': Bot, now: int) {
    if !b.Is(Dead) && b'.Is(Dead) then
      && b'.DeathCount() == b.DeathCount() + 1
      && CountDied(b'.runtime.log) == CountDied(b.runtime.log) + 1
      && b'.deaths == Since(b.deaths + [now], now - RAPID_DEATH_WINDOW_MS + 1)
      && b'.suspended == (b.suspended || |b'.deaths| >= RAPID_DEATH_MAX)
    else SameDeaths(b, b')
  }

  /** A reset forgets the recorded deaths but counts and reports none. */
  ghost predicate Clears(b: Bot, b': Bot) {
    SameDeaths(b.(deaths := [], suspended := false), b') && !(!b.Is(Dead) && b'.Is(Dead))
  }

  /** A fall from DEBUGGING is remembered until the bot is live, and then DEBUGGING again. */
  ghost predicate RepaysDebugging(b: Bot, b': Bot) {
    && (b.Is(Debugging) && (b'.Is(Dead) || b'.Is(Disconnected)) ==> b'.wasDebugging)
    && (b.wasDebugging && !b.Live() ==> if b'.Live() then b'.Is(Debugging) else b'.wasDebugging)
  }

  lemma ReportKeepsDeaths(b: Bot, n: Notice)
    requires n != DIED
    ensures SameDeaths(b, b.Report(n))
  {
    CountDiedSnoc(b.runtime.log, n);
  }

  lemma ConnectEffect(b: Bot, options: ConnectOptions, created: bool)
    ensures var b' := Connect(b, options, created);
            SameDeaths(b, b') && !b'.Is(Dead) && !b'.Live() && b'.wasDebugging == b.wasDebugging
            && !b'.Is(Disconnected)
  {
  }

  lemma AttemptReconnectEffect(b: Bot, options: ConnectOptions, jitter: int)
    ensures var b' := AttemptReconnect(b, options, jitter);
            SameDeaths(b, b') && b'.info == b.info && b'.wasDebugging == b.wasDebugging
  {
    ReportKeepsDeaths(ClearReconnectTimer(b), RECONNECT_EXHAUSTED);
  }

  lemma LoseEffect(b: Bot, notices: seq<Notice>, options: ConnectOptions, jitter: int)
    requires b.info.Some? && (notices == [] || (|notices| == 1 && notices[0] != DIED))
    ensures var b' := Lose(b, notices, options, jitter);
            SameDeaths(b, b') && b'.Is(Disconnected) && b'.wasDebugging == (b.wasDebugging || b.Is(Debugging))
  {
    var b1 := RememberDebugging(b).At(Disconnected);
    assert b1.runtime.log + [] == b1.runtime.log;
    if notices != [] {
      assert notices == [notices[0]];
      CountDiedSnoc(b.runtime.log, notices[0]);
    }
    AttemptReconnectEffect(b1.(runtime := b1.runtime.(log := b1.runtime.log + notices)), options, jitter);
  }

  lemma DeathRecoveryStarts(b: Bot, options: ConnectOptions, now: int)
    ensures var b' := HandleDeathRecovery(b, options, now);
            && b'.info == b.info && b'.wasDebugging == b.wasDebugging
            && CountDied(b'.runtime.log) == CountDied(b.runtime.log)
            && b'.deaths == Since(b.deaths + [now], now - RAPID_DEATH_WINDOW_MS + 1)
            && b'.suspended == (b.suspended || |b'.deaths| >= RAPID_DEATH_MAX)
  {
    CountDiedSnoc(b.runtime.log, RAPID_DEATH);
  }

  lemma MarkDeadEffect(b: Bot)
    requires b.info.Some?
    ensures var b' := MarkDead(b);
            && b'.Is(Dead) && b'.DeathCount() == b.DeathCount() + 1
            && CountDied(b'.runtime.log) == CountDied(b.runtime.log) + 1
            && b'.deaths == b.deaths && b'.suspended == b.suspended
            && b'.wasDebugging == (b.wasDebugging || b.Is(Debugging))
  {
    CountDiedSnoc(b.runtime.log, DIED);
  }

  /** One death: counted once, reported once, recorded once. */
  lemma DieEffect(b: Bot, options: ConnectOptions, now: int)
    requires b.info.Some? && !b.Is(Dead)
    ensures var b' := Die(b, options, now);
            Accounts(b, b', now) && b'.Is(Dead) && b'.wasDebugging == (b.wasDebugging || b.Is(Debugging))
  {
    MarkDeadEffect(b);
    DeathRecoveryStarts(MarkDead(b), options, now);
  }

  lemma ForceRespawnEffect(b: Bot, writable: bool, respawned: bool, created: bool)
    ensures Clears(b, ForceRespawn(b, writable, respawned, created))
  {
    var b1 := b.(suspended := false, deaths := []);
    if b1.info.None? {
    } else if writable && respawned {
      ReportKeepsDeaths(b1.At(Spawned), FORCE_RESPAWN);
    } else {
      var b2 := if writable then b1.At(Spawned).Report(CLEANUP_ERROR) else b1;
      ReportKeepsDeaths(b1.At(Spawned), CLEANUP_ERROR);
      assert SameDeaths(b1, b2) && (b2.Is(Dead) ==> b.Is(Dead));
      if b2.options.Some? {
        ReconnectNowEffect(b2, created);
      }
    }
  }

  lemma ReconnectNowEffect(b: Bot, created: bool)
    requires b.options.Some?
    ensures SameDeaths(b, Connect(b.Report(FORCE_RESPAWN), b.options.value, created))
    ensures !Connect(b.Report(FORCE_RESPAWN), b.options.value, created).Is(Dead)
  {
    ReportKeepsDeaths(b, FORCE_RESPAWN);
    ConnectEffect(b.Report(FORCE_RESPAWN), b.options.value, created);
  }

  lemma DisconnectEffect(b: Bot)
    ensures Clears(b, Disconnect(b))
  {
  }

  lemma SpawnEffect(b: Bot, socket: nat)
    ensures SameDeaths(b, OnSpawn(b, socket)) && !(!b.Is(Dead) && OnSpawn(b, socket).Is(Dead))
    ensures RepaysDebugging(b, OnSpawn(b, socket))
  {
    QuietReports(b.runtime.log, SPAWNED);
  }

  /** Being back and in debug mode again is no death. */
  lemma QuietReports(log: seq<Notice>, n: Notice)
    requires n != DIED
    ensures CountDied(log + [n]) == CountDied(log) == CountDied(log + [DEBUG_RESTORED] + [n])
  {
    CountDiedSnoc(log, n);
    CountDiedSnoc(log, DEBUG_RESTORED);
    CountDiedSnoc(log + [DEBUG_RESTORED], n);
  }

  lemma RespawnEffect(b: Bot, socket: nat)
    ensures SameDeaths(b, OnRespawn(b, socket)) && !(!b.Is(Dead) && OnRespawn(b, socket).Is(Dead))
    ensures RepaysDebugging(b, OnRespawn(b, socket))
  {
    QuietReports(b.runtime.log, RAPID_DEATH_DISCONNECT);
    QuietReports(b.runtime.log, RESPAWNED);
  }

  lemma HealthEffect(b: Bot, options: ConnectOptions, healthIsZero: bool, now: int)
    ensures Accounts(b, OnHealth(b, options, healthIsZero, now), now)
    ensures RepaysDebugging(b, OnHealth(b, options, healthIsZero, now))
  {
    if b.info.Some? && !b.Is(Dead) { DieEffect(b, options, now); }
  }

  lemma DeathEffect(b: Bot, options: ConnectOptions, now: int)
    ensures Accounts(b, OnDeath(b, options, now), now) && RepaysDebugging(b, OnDeath(b, options, now))
  {
    if b.info.Some? && !b.Is(Dead) { DieEffect(b, options, now); }
  }

  lemma KickedEffect(b: Bot, options: ConnectOptions, jitter: int, now: int)
    ensures Accounts(b, OnKicked(b, options, jitter), now) && RepaysDebugging(b, OnKicked(b, options, jitter))
  {
    ReportKeepsDeaths(b, KICKED);
    if b.info.Some? { LoseEffect(b, [KICKED], options, jitter); }
  }

  lemma FailedEffect(b: Bot, options: ConnectOptions, jitter: int, now: int)
    ensures Accounts(b, OnError(b, options, jitter), now) && RepaysDebugging(b, OnError(b, options, jitter))
  {
    ReportKeepsDeaths(b, ERROR);
    if b.info.Some? { LoseEffect(b.Report(ERROR), [], options, jitter); }
  }

  lemma EndEffect(b: Bot, lastY: Option<real>, options: ConnectOptions, now: int, jitter: int)
    ensures Accounts(b, EndDue(b, lastY, options, now, jitter), now)
    ensures RepaysDebugging(b, EndDue(b, lastY, options, now, jitter))
  {
    if b.info.Some? && !b.Is(Dead) {
      DieEffect(b, options, now);
      LoseEffect(b, [DISCONNECTED], options, jitter);
    }
  }

  lemma AutoRespawnEffect(b: Bot, options: ConnectOptions, writable: bool, respawned: bool, jitter: int)
    ensures var b' := AutoRespawnDue(b, options, writable, respawned, jitter);
            SameDeaths(b, b') && b'.info == b.info && b'.wasDebugging == b.wasDebugging
  {
    if !b.suspended && b.Is(Dead) {
      if writable && respawned {
        ReportKeepsDeaths(b, AUTO_RESPAWN);
      } else if writable {
        ReportKeepsDeaths(b, CLEANUP_ERROR);
        RetryEffect(b.Report(CLEANUP_ERROR), options, jitter);
      } else {
        RetryEffect(b, options, jitter);
      }
    }
  }

  lemma RetryEffect(b: Bot, options: ConnectOptions, jitter: int)
    ensures var b' := AttemptReconnect(b.Report(AUTO_RESPAWN), options, jitter);
            SameDeaths(b, b') && b'.info == b.info && b'.wasDebugging == b.wasDebugging
  {
    ReportKeepsDeaths(b, AUTO_RESPAWN);
    AttemptReconnectEffect(b.Report(AUTO_RESPAWN), options, jitter);
  }

  lemma ExhaustionEffect(b: Bot, id: nat, options: ConnectOptions, created: bool)
    ensures var b' := ExhaustionDue(b, id, options, created);
            SameDeaths(b, b') && !(!b.Is(Dead) && b'.Is(Dead)) && RepaysDebugging(b, b')
  {
    var b1 := b.(tracked := None);
    var b2 := if b1.strategy.Some? && b1.strategy.value.id == id
              then b1.(strategy := Some(b1.strategy.value.Reset())) else b1;
    ReportKeepsDeaths(b2, RECONNECT_RECOVERY);
    ConnectEffect(b2.Report(RECONNECT_RECOVERY), options, created);
  }

  lemma DeathRecoveryEffect(b: Bot, options: ConnectOptions, created: bool)
    ensures Clears(b, DeathRecoveryDue(b, options, created))
    ensures RepaysDebugging(b, DeathRecoveryDue(b, options, created))
  {
    var b1 := b.(tracked := None, suspended := false, deaths := []);
    ReportKeepsDeaths(b1, RAPID_DEATH_RECOVERY);
    ConnectEffect(b1.Report(RAPID_DEATH_RECOVERY), options, created);
  }

  ghost predicate Effect(b: Bot, t: Tick, b': Bot) {
    && (if Resets(t.event) then Clears(b, b') else Accounts(b, b', t.now))
    && (!IsCommand(t.event) ==> RepaysDebugging(b, b'))
  }

  lemma CallbackEffect(b: Bot, t: Tick)
    requires t.event.Due?
    ensures Effect(b, t, RunCallback(b, t))
  {
    match t.event.callback
    case Reconnect(_, options) =>
      ConnectEffect(b.(tracked := None), options, t.event.created);
    case ExhaustionRecovery(id, options) =>
      ExhaustionEffect(b, id, options, t.event.created);
    case DeathRecovery(options) =>
      DeathRecoveryEffect(b, options, t.event.created);
    case AutoRespawn(options) =>
      AutoRespawnEffect(b, options, t.event.writable, t.event.respawned, t.jitter);
    case EndDelay(lastY, options) =>
      EndEffect(b, lastY, options, t.now, t.jitter);
  }

  lemma LivingEffect(b: Bot, t: Tick)
    requires t.event.Spawn? || t.event.Respawn? || t.event.Health? || t.event.Death?
    ensures Effect(b, t, Step(b, t))
  {
    match t.event
    case Spawn(socket) => SpawnEffect(b, socket);
    case Respawn(socket) => RespawnEffect(b, socket);
    case Health(_, options, healthIsZero) => HealthEffect(b, options, healthIsZero, t.now);
    case Death(_, options) => DeathEffect(b, options, t.now);
  }

  lemma LosingEffect(b: Bot, t: Tick)
    requires t.event.Kicked? || t.event.Failed? || t.event.Ended?
    ensures Effect(b, t, Step(b, t))
  {
    match t.event
    case Kicked(_, options) => KickedEffect(b, options, t.jitter, t.now);
    case Failed(_, options) => FailedEffect(b, options, t.jitter, t.now);
    case Ended(_, _, _) =>
  }

  /** What one step does to the death records and to the debugging memory. */
  lemma StepEffect(b: Bot, t: Tick)
    ensures Effect(b, t, Step(b, t))
  {
    match t.event
    case ConnectCall(options, created) => ConnectEffect(b, options, created);
    case DisconnectCall => DisconnectEffect(b);
    case ForceRespawnCall(writable, respawned, created) => ForceRespawnEffect(b, writable, respawned, created);
    case DebugEnter =>
    case DebugExit =>
    case Due(id, _, _, _, _) => CallbackEffect(b.(runtime := b.runtime.Cancel(id)), t);
    case Spawn(_) => LivingEffect(b, t);
    case Respawn(_) => LivingEffect(b, t);
    case Health(_, _, _) => LivingEffect(b, t);
    case Death(_, _) => LivingEffect(b, t);
    case _ => LosingEffect(b, t);
  }

  /**
   Death accounting is exact over every run, reconnects included: the counter, the number of
   entries into DEAD and the number of DIED reports agree, whoever noticed each death first.
   */
  lemma {:induction false} DeathAccountingIsExact(ticks: seq<Tick>)
    ensures var b := Run(Unknown, ticks);
            && b.DeathCount() == CountDeaths(Unknown, ticks)
            && CountDied(b.runtime.log) == CountDeaths(Unknown, ticks)
  {
    if ticks != [] {
      var before := ticks[..|ticks| - 1];
      DeathAccountingIsExact(before);
      StepEffect(Run(Unknown, before), ticks[|ticks| - 1]);
    }
  }

  // Rapid deaths

  ghost predicate ClockMonotone(ticks: seq<Tick>) {
    forall i, j :: 0 <= i < j < |ticks| ==> ticks[i].now <= ticks[j].now
  }

  /** The times at which the bot entered DEAD since its records were last reset. */
  function DeathHistory(ticks: seq<Tick>): seq<int> {
    if ticks == [] then []
    else
      var before, t := ticks[..|ticks| - 1], ticks[|ticks| - 1];
      if Resets(t.event) then []
      else if Dies(Run(Unknown, before), t) then DeathHistory(before) + [t.now]
      else DeathHistory(before)
  }

  /** Deaths number i to i+3 of `h` all fall into one window. */
  predicate Burst(h: seq<int>, i: nat)
    requires i + RAPID_DEATH_MAX <= |h|
  {
    h[i + RAPID_DEATH_MAX - 1] - h[i] < RAPID_DEATH_WINDOW_MS
  }

  ghost predicate HasBurst(h: seq<int>) {
    exists i: nat :: i + RAPID_DEATH_MAX <= |h| && Burst(h, i)
  }

  function LastWindow(h: seq<int>): seq<int> {
    if h == [] then [] else Since(h, h[|h| - 1] - RAPID_DEATH_WINDOW_MS + 1)
  }

  lemma {:induction false} HistoryIsSorted(ticks: seq<Tick>)
    requires ClockMonotone(ticks)
    ensures Sorted(DeathHistory(ticks))
    ensures forall i :: 0 <= i < |DeathHistory(ticks)| ==>
              |ticks| > 0 && DeathHistory(ticks)[i] <= ticks[|ticks| - 1].now
  {
    if ticks != [] {
      var before := ticks[..|ticks| - 1];
      HistoryIsSorted(before);
      if before != [] {
        assert before[|before| - 1] == ticks[|ticks| - 2];
      }
    }
  }

  lemma WindowSlides(h: seq<int>, now: int)
    requires Sorted(h + [now])
    ensures Since(LastWindow(h) + [now], now - RAPID_DEATH_WINDOW_MS + 1) == LastWindow(h + [now])
  {
    var start := now - RAPID_DEATH_WINDOW_MS + 1;
    SinceSnoc(LastWindow(h), now, start);
    SinceSnoc(h, now, start);
    if h != [] {
      assert h[|h| - 1] == (h + [now])[|h| - 1] <= (h + [now])[|h|];
      SinceSince(h, h[|h| - 1] - RAPID_DEATH_WINDOW_MS + 1, start);
    }
  }

  lemma BurstAtEnd(h: seq<int>, now: int)
    requires Sorted(h + [now])
    ensures HasBurst(h + [now]) <==> HasBurst(h) || |LastWindow(h + [now])| >= RAPID_DEATH_MAX
  {
    var h1 := h + [now];
    var k := SinceIsSuffix(h1, now - RAPID_DEATH_WINDOW_MS + 1);
    if |LastWindow(h1)| >= RAPID_DEATH_MAX {
      assert Burst(h1, |h1| - RAPID_DEATH_MAX);
    }
    if i: nat :| i + RAPID_DEATH_MAX <= |h| && Burst(h, i) {
      assert Burst(h1, i);
    }
    if i: nat :| i + RAPID_DEATH_MAX <= |h1| && Burst(h1, i) {
      if i + RAPID_DEATH_MAX <= |h| {
        assert Burst(h, i);
      }
    }
  }

  lemma WindowStep(b: Bot, b': Bot, now: int, h: seq<int>)
    requires b.deaths == LastWindow(h) && (b.suspended <==> HasBurst(h))
    requires Sorted(h + [now]) && Accounts(b, b', now) && !b.Is(Dead) && b'.Is(Dead)
    ensures b'.deaths == LastWindow(h + [now])
    ensures b'.suspended <==> HasBurst(h + [now])
  {
    WindowSlides(h, now);
    BurstAtEnd(h, now);
  }

  /**
   The pruned list is the full history since the last reset cut to the window before the
   latest death, and auto-respawn is suspended exactly when four of those deaths ever fell
   into one window.
   */
  lemma {:induction false} RapidDeathDetection(ticks: seq<Tick>)
    requires ClockMonotone(ticks)
    ensures Run(Unknown, ticks).deaths == LastWindow(DeathHistory(ticks))
    ensures Run(Unknown, ticks).suspended <==> HasBurst(DeathHistory(ticks))
  {
    if ticks != [] {
      var before, t := ticks[..|ticks| - 1], ticks[|ticks| - 1];
      var b, h := Run(Unknown, before), DeathHistory(before);
      RapidDeathDetection(before);
      StepEffect(b, t);
      HistoryIsSorted(ticks);
      if !Resets(t.event) && Dies(b, t) {
        WindowStep(b, Step(b, t), t.now, h);
      }
    }
  }

  /** Four or more remembered deaths always mean suspension. */
  lemma FullListMeansSuspended(ticks: seq<Tick>)
    requires ClockMonotone(ticks)
    ensures |Run(Unknown, ticks).deaths| >= RAPID_DEATH_MAX ==> Run(Unknown, ticks).suspended
  {
    RapidDeathDetection(ticks);
    HistoryIsSorted(ticks);
    if |Run(Unknown, ticks).deaths| >= RAPID_DEATH_MAX {
      LongWindowHasBurst(DeathHistory(ticks));
    }
  }

  lemma LongWindowHasBurst(h: seq<int>)
    requires Sorted(h) && |LastWindow(h)| >= RAPID_DEATH_MAX
    ensures HasBurst(h)
  {
    var k := SinceIsSuffix(h, h[|h| - 1] - RAPID_DEATH_WINDOW_MS + 1);
    assert Burst(h, |h| - RAPID_DEATH_MAX);
  }

  // Suspension

  /** Everything but the events that may end a suspension or a death. */
  predicate CannotRevive(e: Event) {
    match e
    case Health(_, _, _) => true
    case Death(_, _) => true
    case Kicked(_, _) => true
    case Failed(_, _) => true
    case Ended(_, _, _) => true
    case Respawn(_) => true
    case Due(_, cb, _, _, _) => cb.AutoRespawn? || cb.EndDelay?
    case _ => false
  }

  /**
   A suspended dead bot stays dead, suspended and uncounted through any number of server
   respawns, auto-respawn callbacks and other socket events, and gets no new callback
   that could reconnect it.
   */
  lemma {:induction false} SuspendedBotStaysDead(b: Bot, ticks: seq<Tick>)
    requires b.Is(Dead) && b.suspended
    requires forall t :: t in ticks ==> CannotRevive(t.event)
    ensures var b' := Run(b, ticks);
            && b'.info == b.info && b'.suspended && b'.deaths == b.deaths
            && b'.strategy == b.strategy && b'.tracked == b.tracked
            && forall id :: id in b'.runtime.timers && !b'.runtime.timers[id].EndDelay? ==>
                 id in b.runtime.timers
  {
    if ticks != [] {
      SuspendedBotStaysDead(b, ticks[..|ticks| - 1]);
      var t := ticks[|ticks| - 1];
      assert CannotRevive(t.event);
    }
  }

  // Debug restoration

  /**
   A bot that fell out of DEBUGGING at tick k by death, kick, end or error, and becomes live
   again for the first time at tick m, is put back into DEBUGGING, however many deaths and
   reconnects lie between.
   */
  lemma DebuggingIsRestored(b: Bot, ticks: seq<Tick>, k: nat, m: nat)
    requires k < m < |ticks|
    requires forall i :: k <= i <= m ==> !IsCommand(ticks[i].event)
    requires Run(b, ticks[..k]).Is(Debugging)
    requires Run(b, ticks[..k + 1]).Is(Dead) || Run(b, ticks[..k + 1]).Is(Disconnected)
    requires forall i :: k < i <= m ==> !Run(b, ticks[..i]).Live()
    requires Run(b, ticks[..m + 1]).Live()
    ensures Run(b, ticks[..m + 1]).Is(Debugging)
  {
    RunSnoc(b, ticks, k);
    StepEffect(Run(b, ticks[..k]), ticks[k]);
    DebtPersists(b, ticks, k, m);
    RunSnoc(b, ticks, m);
    StepEffect(Run(b, ticks[..m]), ticks[m]);
  }

  lemma RunSnoc(b: Bot, ticks: seq<Tick>, k: nat)
    requires k < |ticks|
    ensures Run(b, ticks[..k + 1]) == Step(Run(b, ticks[..k]), ticks[k])
  {
    assert ticks[..k + 1][..k] == ticks[..k];
  }

  lemma {:induction false} DebtPersists(b: Bot, ticks: seq<Tick>, k: nat, m: nat)
    requires k < m < |ticks|
    requires forall i :: k <= i <= m ==> !IsCommand(ticks[i].event)
    requires Run(b, ticks[..k + 1]).wasDebugging
    requires forall i :: k < i <= m ==> !Run(b, ticks[..i]).Live()
    ensures Run(b, ticks[..m]).wasDebugging
    decreases m
  {
    if k + 1 < m {
      DebtPersists(b, ticks, k, m - 1);
      DebtStep(b, ticks, m - 1);
    }
  }

  lemma DebtStep(b: Bot, ticks: seq<Tick>, i: nat)
    requires i < |ticks| && !IsCommand(ticks[i].event)
    requires Run(b, ticks[..i]).wasDebugging && !Run(b, ticks[..i]).Live() && !Run(b, ticks[..i + 1]).Live()
    ensures Run(b, ticks[..i + 1]).wasDebugging
  {
    RunSnoc(b, ticks, i);
    StepEffect(Run(b, ticks[..i]), ticks[i]);
  }
}
