/**
 Callbacks and listeners over whole runs: bounds on every reconnect delay, and exactly when a
 disconnect is final. The code overwrites the tracked timer without clearing it, so the
 event loop can hold reconnect callbacks that no later call can cancel.
 */
module BotLifecycleTimers {
  import opened Collections
  import opened BotLifecycle
  import opened BotLifecycleRuns

  /** The event can occur: its listener is attached, or its callback is still scheduled. */
  predicate Enabled(b: Bot, t: Tick) {
    match t.event
    case Spawn(socket) => socket in b.runtime.listeners && b.runtime.listeners[socket].awaitingSpawn
    case Health(socket, options, _) => Hears(b, socket, options)
    case Death(socket, options) => Hears(b, socket, options)
    case Kicked(socket, options) => Hears(b, socket, options)
    case Failed(socket, options) => Hears(b, socket, options)
    case Ended(socket, options, _) => Hears(b, socket, options)
    case Respawn(socket) => socket in b.runtime.listeners
    case Due(id, callback, _, _, _) => id in b.runtime.timers && b.runtime.timers[id] == callback
    case _ => true
  }

  predicate Hears(b: Bot, socket: nat, options: ConnectOptions) {
    socket in b.runtime.listeners && b.runtime.listeners[socket].options == options
  }

  predicate EnabledRun(b: Bot, ticks: seq<Tick>) {
    ticks == [] ||
    (EnabledRun(b, ticks[..|ticks| - 1]) && Enabled(Run(b, ticks[..|ticks| - 1]), ticks[|ticks| - 1]))
  }

  predicate JitterInRange(t: Tick) {
    0 <= t.jitter < RECONNECT_JITTER_MAX_MS
  }

  /** What every reachable state satisfies. */
  ghost predicate Inv(b: Bot) {
    && (forall id :: id in b.runtime.timers ==>
          id < b.runtime.nextId && DelayInRange(b.runtime.timers[id]))
    && (forall id :: id in b.runtime.listeners ==>
          id < b.runtime.nextId && b.info.Some? && id == b.info.value.socket)
    && (b.tracked.Some? ==> b.tracked.value < b.runtime.nextId)
    && (b.strategy.Some? ==> b.strategy.value.failures <= Max(0, b.strategy.value.maxRetries))
  }

  /** Backoff doubles from two base delays up to the cap, plus less than three seconds of jitter. */
  predicate DelayInRange(cb: Callback) {
    cb.Reconnect? ==>
      2 * RECONNECT_BASE_DELAY_MS <= cb.delayMs < RECONNECT_MAX_DELAY_MS + RECONNECT_JITTER_MAX_MS
  }

  lemma NextDelayInRange(s: Strategy)
    requires s.failures >= 1
    ensures 2 * RECONNECT_BASE_DELAY_MS <= s.NextDelayMs() <= RECONNECT_MAX_DELAY_MS
  {
    assert Pow2(s.failures) == 2 * Pow2(s.failures - 1);
    Pow2Positive(s.failures - 1);
  }

  lemma Pow2Positive(n: nat)
    ensures Pow2(n) >= 1
  {
  }

  lemma ConnectInv(b: Bot, options: ConnectOptions, created: bool)
    requires Inv(b)
    ensures Inv(Connect(b, options, created))
  {
  }

  lemma AttemptReconnectInv(b: Bot, options: ConnectOptions, jitter: int)
    requires Inv(b) && 0 <= jitter < RECONNECT_JITTER_MAX_MS
    ensures Inv(AttemptReconnect(b, options, jitter))
  {
    if b.strategy.Some? && b.strategy.value.ShouldReconnect() {
      NextDelayInRange(b.strategy.value.RecordFailure());
    }
  }

  lemma LoseInv(b: Bot, notices: seq<Notice>, options: ConnectOptions, jitter: int)
    requires Inv(b) && b.info.Some? && 0 <= jitter < RECONNECT_JITTER_MAX_MS
    ensures Inv(Lose(b, notices, options, jitter))
  {
    var b1 := RememberDebugging(b).At(Disconnected);
    AttemptReconnectInv(b1.(runtime := b1.runtime.(log := b1.runtime.log + notices)), options, jitter);
  }

  lemma DieInv(b: Bot, options: ConnectOptions, now: int)
    requires Inv(b) && b.info.Some?
    ensures Inv(Die(b, options, now))
  {
  }

  lemma ForceRespawnInv(b: Bot, writable: bool, respawned: bool, created: bool)
    requires Inv(b)
    ensures Inv(ForceRespawn(b, writable, respawned, created))
  {
    var b1 := b.(suspended := false, deaths := []);
    if b1.info.Some? && !(writable && respawned) {
      var b2 := if writable then b1.At(Spawned).Report(CLEANUP_ERROR) else b1;
      assert Inv(b2);
      if b2.options.Some? { ConnectInv(b2.Report(FORCE_RESPAWN), b2.options.value, created); }
    }
  }

  lemma ExhaustionInv(b: Bot, id: nat, options: ConnectOptions, created: bool)
    requires Inv(b)
    ensures Inv(ExhaustionDue(b, id, options, created))
  {
    var b1 := b.(tracked := None);
    var b2 := if b1.strategy.Some? && b1.strategy.value.id == id
              then b1.(strategy := Some(b1.strategy.value.Reset())) else b1;
    assert Inv(b2.Report(RECONNECT_RECOVERY));
    ConnectInv(b2.Report(RECONNECT_RECOVERY), options, created);
  }

  lemma AutoRespawnInv(b: Bot, options: ConnectOptions, writable: bool, respawned: bool, jitter: int)
    requires Inv(b) && 0 <= jitter < RECONNECT_JITTER_MAX_MS
    ensures Inv(AutoRespawnDue(b, options, writable, respawned, jitter))
  {
    var b1 := if writable then b.Report(CLEANUP_ERROR) else b;
    AttemptReconnectInv(b1.Report(AUTO_RESPAWN), options, jitter);
  }

  lemma EndInv(b: Bot, lastY: Option<real>, options: ConnectOptions, now: int, jitter: int)
    requires Inv(b) && 0 <= jitter < RECONNECT_JITTER_MAX_MS
    ensures Inv(EndDue(b, lastY, options, now, jitter))
  {
    if b.info.Some? {
      DieInv(b, options, now);
      LoseInv(b, [DISCONNECTED], options, jitter);
    }
  }

  lemma CallbackInv(b: Bot, t: Tick)
    requires Inv(b) && t.event.Due? && JitterInRange(t)
    ensures Inv(RunCallback(b, t))
  {
    match t.event.callback
    case Reconnect(_, options) =>
      ConnectInv(b.(tracked := None), options, t.event.created);
    case ExhaustionRecovery(id, options) =>
      ExhaustionInv(b, id, options, t.event.created);
    case DeathRecovery(options) =>
      ConnectInv(b.(tracked := None, suspended := false, deaths := []).Report(RAPID_DEATH_RECOVERY),
                 options, t.event.created);
    case AutoRespawn(options) =>
      AutoRespawnInv(b, options, t.event.writable, t.event.respawned, t.jitter);
    case EndDelay(lastY, options) =>
      EndInv(b, lastY, options, t.now, t.jitter);
  }

  lemma LossInv(b: Bot, t: Tick)
    requires Inv(b) && JitterInRange(t) && (t.event.Kicked? || t.event.Failed?)
    ensures Inv(Step(b, t))
  {
    if b.info.Some? {
      if t.event.Kicked? {
        LoseInv(b, [KICKED], t.event.options, t.jitter);
      } else {
        LoseInv(b.Report(ERROR), [], t.event.options, t.jitter);
      }
    }
  }

  lemma HealthInv(b: Bot, options: ConnectOptions, healthIsZero: bool, now: int)
    requires Inv(b)
    ensures Inv(OnHealth(b, options, healthIsZero, now))
  {
    if b.info.Some? { DieInv(b, options, now); }
  }

  lemma DeathInv(b: Bot, options: ConnectOptions, now: int)
    requires Inv(b)
    ensures Inv(OnDeath(b, options, now))
  {
    if b.info.Some? { DieInv(b, options, now); }
  }

  lemma SpawnInv(b: Bot, socket: nat)
    requires Inv(b)
    ensures Inv(OnSpawn(b, socket))
  {
    var b0 := if socket in b.runtime.listeners
              then b.(runtime := b.runtime.Attach(socket, b.runtime.listeners[socket].(awaitingSpawn := false)))
              else b;
    assert Inv(b0);
  }

  lemma RespawnInv(b: Bot, socket: nat)
    requires Inv(b)
    ensures Inv(OnRespawn(b, socket))
  {
  }

  lemma SocketInv(b: Bot, t: Tick)
    requires Inv(b) && JitterInRange(t) && !IsCommand(t.event) && !t.event.Due? && !t.event.ConnectCall?
    ensures Inv(Step(b, t))
  {
    if t.event.Health? {
      HealthInv(b, t.event.options, t.event.healthIsZero, t.now);
    } else if t.event.Death? {
      DeathInv(b, t.event.options, t.now);
    } else if t.event.Kicked? || t.event.Failed? {
      LossInv(b, t);
    } else if t.event.Spawn? {
      SpawnInv(b, t.event.socket);
    } else if t.event.Respawn? {
      RespawnInv(b, t.event.socket);
    }
  }

  lemma StepInv(b: Bot, t: Tick)
    requires Inv(b) && JitterInRange(t)
    ensures Inv(Step(b, t))
  {
    match t.event
    case ConnectCall(options, created) => ConnectInv(b, options, created);
    case DisconnectCall =>
    case ForceRespawnCall(writable, respawned, created) => ForceRespawnInv(b, writable, respawned, created);
    case DebugEnter =>
    case DebugExit =>
    case Due(id, _, _, _, _) => CallbackInv(b.(runtime := b.runtime.Cancel(id)), t);
    case _ => SocketInv(b, t);
  }

  /**
   In every run, each scheduled reconnect waits between 2000 and 32999 ms, no strategy records
   more failures than its limit, and only the newest socket has listeners.
   */
  lemma {:induction false} ReachableStatesSatisfyInv(ticks: seq<Tick>)
    requires forall t :: t in ticks ==> JitterInRange(t)
    ensures Inv(Run(Unknown, ticks))
  {
    if ticks != [] {
      ReachableStatesSatisfyInv(ticks[..|ticks| - 1]);
      assert ticks[|ticks| - 1] in ticks;
      StepInv(Run(Unknown, ticks[..|ticks| - 1]), ticks[|ticks| - 1]);
    }
  }

  // Is a disconnect final?

  /** A scheduled reconnect that the connector no longer tracks and so cannot clear. */
  ghost predicate HasStrayReconnect(b: Bot) {
    exists id: nat :: id in b.runtime.timers && b.runtime.timers[id].Reconnect? && b.tracked != Some(id)
  }

  /** No command reaches the bot: only the event loop acts. */
  predicate Unattended(ticks: seq<Tick>) {
    forall t :: t in ticks ==> !IsCommand(t.event) && !t.event.ConnectCall?
  }

  ghost predicate StaysStopped(b: Bot) {
    forall ticks :: EnabledRun(b, ticks) && Unattended(ticks) ==> Run(b, ticks).Is(Stopped)
  }

  /** Stopped, deaf, and nothing scheduled that reconnects without checking the phase. */
  ghost predicate Quiet(b: Bot) {
    && b.Is(Stopped) && b.runtime.listeners == map[]
    && forall id :: id in b.runtime.timers ==> !b.runtime.timers[id].Reconnect?
  }

  lemma QuietStep(b: Bot, t: Tick)
    requires Quiet(b) && Enabled(b, t) && !IsCommand(t.event) && !t.event.ConnectCall?
    ensures Quiet(Step(b, t))
  {
    assert t.event.Due?;
  }

  lemma {:induction false} QuietRun(b: Bot, ticks: seq<Tick>)
    requires Quiet(b) && EnabledRun(b, ticks) && Unattended(ticks)
    ensures Quiet(Run(b, ticks))
  {
    if ticks != [] {
      QuietRun(b, ticks[..|ticks| - 1]);
      assert ticks[|ticks| - 1] in ticks;
      QuietStep(Run(b, ticks[..|ticks| - 1]), ticks[|ticks| - 1]);
    }
  }

  /**
   After a disconnect the bot stays STOPPED until the next command, whatever the event loop
   does, if and only if no reconnect callback was scheduled outside the tracked one.
   */
  lemma DisconnectIsFinalIff(b: Bot)
    requires Inv(b) && b.info.Some?
    ensures StaysStopped(Disconnect(b)) <==> !HasStrayReconnect(b)
  {
    var b' := Disconnect(b);
    if HasStrayReconnect(b) {
      var id: nat :| id in b.runtime.timers && b.runtime.timers[id].Reconnect? && b.tracked != Some(id);
      var t := Tick(0, 0, Due(id, b.runtime.timers[id], false, false, true));
      assert [t][..0] == [];
      assert Run(b', []) == b' && EnabledRun(b', []);
      assert Enabled(b', t);
      assert EnabledRun(b', [t]) && Unattended([t]) && Run(b', [t]).Is(Connecting);
    } else {
      assert Quiet(b');
      forall ticks | EnabledRun(b', ticks) && Unattended(ticks)
        ensures Run(b', ticks).Is(Stopped)
      {
        QuietRun(b', ticks);
      }
    }
  }

  /** A short enabled run to a state with a stray reconnect: kicked, then found dead, then retried. */
  lemma StrayReconnectIsReachable() returns (ticks: seq<Tick>)
    ensures EnabledRun(Unknown, ticks) && forall t :: t in ticks ==> JitterInRange(t)
    ensures Run(Unknown, ticks).info.Some? && HasStrayReconnect(Run(Unknown, ticks))
  {
    var o := ConnectOptions(true, 3, true);
    var t0 := Tick(0, 0, ConnectCall(o, true));
    var t1 := Tick(10, 2000, Kicked(0, o));
    var t2 := Tick(20, 0, Death(0, o));
    var t3 := Tick(3020, 0, Due(3, AutoRespawn(o), false, false, true));
    ticks := [t0, t1, t2, t3];
    FirstConnect(t0, o);
    StrayAfterConnect(Step(Unknown, t0), t1, t2, t3, o);
    RunOfFour(t0, t1, t2, t3);
  }

  lemma StrayAfterConnect(b0: Bot, t1: Tick, t2: Tick, t3: Tick, o: ConnectOptions)
    requires o == ConnectOptions(true, 3, true)
    requires b0.Is(Connecting) && b0.deaths == [] && !b0.suspended && b0.strategy == Some(Strategy(1, 0, 3))
    requires b0.runtime.nextId == 2 && Hears(b0, 0, o)
    requires t1.event == Kicked(0, o) && t2.event == Death(0, o)
    requires t3.event == Due(3, AutoRespawn(o), false, false, true)
    ensures var b1 := Step(b0, t1);
            var b2 := Step(b1, t2);
            && Enabled(b0, t1) && Enabled(b1, t2) && Enabled(b2, t3)
            && HasStrayReconnect(Step(b2, t3)) && Step(b2, t3).info.Some?
  {
    var b1 := Step(b0, t1);
    FirstKick(b0, t1, o);
    DeathAfterKick(b1, t2, o);
    LateRetryStrands(Step(b1, t2), t3, o);
  }

  lemma FirstConnect(t: Tick, o: ConnectOptions)
    requires o == ConnectOptions(true, 3, true) && t.event == ConnectCall(o, true)
    ensures var b := Step(Unknown, t);
            && b.Is(Connecting) && b.deaths == [] && !b.suspended && b.tracked == None
            && b.strategy == Some(Strategy(1, 0, 3)) && b.runtime.nextId == 2 && b.runtime.timers == map[]
            && Hears(b, 0, o)
  {
  }

  lemma FirstKick(b: Bot, t: Tick, o: ConnectOptions)
    requires b.Is(Connecting) && b.deaths == [] && !b.suspended && b.strategy == Some(Strategy(1, 0, 3))
    requires b.runtime.nextId == 2 && t.event == Kicked(0, o)
    ensures var b' := Step(b, t);
            && b'.Is(Disconnected) && b'.deaths == [] && !b'.suspended && b'.tracked == Some(2)
            && b'.strategy == Some(Strategy(1, 1, 3)) && b'.runtime.nextId == 3
            && 2 in b'.runtime.timers && b'.runtime.timers[2].Reconnect?
            && b'.runtime.listeners == b.runtime.listeners
  {
  }

  lemma FirstDeathSchedules(b: Bot, o: ConnectOptions, now: int)
    requires b.deaths == [] && !b.suspended && o.autoRespawn
    ensures var b' := HandleDeathRecovery(b, o, now);
            && b'.info == b.info && !b'.suspended && b'.tracked == b.tracked && b'.strategy == b.strategy
            && b'.runtime == b.runtime.Schedule(AutoRespawn(o))
  {
    assert |Since([] + [now], now - RAPID_DEATH_WINDOW_MS + 1)| <= 1;
  }

  lemma DeathAfterKick(b: Bot, t: Tick, o: ConnectOptions)
    requires b.Is(Disconnected) && b.deaths == [] && !b.suspended && o.autoRespawn
    requires b.runtime.nextId == 3 && t.event == Death(0, o)
    ensures var b' := Step(b, t);
            && b'.Is(Dead) && !b'.suspended && b'.tracked == b.tracked && b'.strategy == b.strategy
            && b'.runtime.nextId == 4 && b'.runtime.timers == b.runtime.timers[3 := AutoRespawn(o)]
  {
    FirstDeathSchedules(MarkDead(b), o, t.now);
  }

  /** An auto-respawn that falls back to reconnecting overwrites the tracked reconnect. */
  lemma LateRetryStrands(b: Bot, t: Tick, o: ConnectOptions)
    requires t.event == Due(3, AutoRespawn(o), false, false, true)
    requires b.Is(Dead) && !b.suspended && b.tracked == Some(2)
    requires b.strategy == Some(Strategy(1, 1, 3)) && b.runtime.nextId == 4
    requires 2 in b.runtime.timers && b.runtime.timers[2].Reconnect?
    ensures HasStrayReconnect(Step(b, t)) && Step(b, t).info.Some?
  {
    var b' := Step(b, t);
    assert b'.tracked == Some(4) && 2 in b'.runtime.timers && b'.runtime.timers[2].Reconnect?;
  }

  lemma RunOfFour(t0: Tick, t1: Tick, t2: Tick, t3: Tick)
    ensures var b0 := Step(Unknown, t0);
            var b1 := Step(b0, t1);
            var b2 := Step(b1, t2);
            && Run(Unknown, [t0, t1, t2, t3]) == Step(b2, t3)
            && (EnabledRun(Unknown, [t0, t1, t2, t3]) <==>
                  Enabled(Unknown, t0) && Enabled(b0, t1) && Enabled(b1, t2) && Enabled(b2, t3))
  {
    assert [t0, t1, t2, t3][..3] == [t0, t1, t2];
    assert [t0, t1, t2][..2] == [t0, t1];
    assert [t0, t1][..1] == [t0];
    assert [t0][..0] == [];
    assert Run(Unknown, [t0]) == Step(Run(Unknown, []), t0);
    assert Run(Unknown, [t0, t1]) == Step(Run(Unknown, [t0]), t1);
    assert Run(Unknown, [t0, t1, t2]) == Step(Run(Unknown, [t0, t1]), t2);
    assert EnabledRun(Unknown, [t0]) <==> Enabled(Unknown, t0);
    assert EnabledRun(Unknown, [t0, t1]) <==> Enabled(Unknown, t0) && Enabled(Step(Unknown, t0), t1);
  }

  // How long does a suspension hold?

  /** Events that end a suspension on purpose: a command, or the recovery scheduled with it. */
  predicate EndsSuspension(e: Event) {
    IsCommand(e) || e.ConnectCall? || (e.Due? && e.callback.DeathRecovery?)
  }

  predicate LeftAlone(ticks: seq<Tick>) {
    forall t :: t in ticks ==> !EndsSuspension(t.event)
  }

  ghost predicate StaysDead(b: Bot) {
    forall ticks :: EnabledRun(b, ticks) && LeftAlone(ticks) ==> Run(b, ticks).Is(Dead)
  }

  /** A callback that connects without looking at the suspension. */
  predicate Reconnects(cb: Callback) {
    cb.Reconnect? || cb.ExhaustionRecovery?
  }

  ghost predicate CanBeRevived(b: Bot) {
    || (exists id: nat :: id in b.runtime.timers && Reconnects(b.runtime.timers[id]))
    || (exists socket: nat :: socket in b.runtime.listeners && b.runtime.listeners[socket].awaitingSpawn)
  }

  lemma SuspendedStep(b: Bot, t: Tick)
    requires b.Is(Dead) && b.suspended && !CanBeRevived(b) && Enabled(b, t) && !EndsSuspension(t.event)
    ensures var b' := Step(b, t); b'.Is(Dead) && b'.suspended && !CanBeRevived(b') && b'.DeathCount() == b.DeathCount()
  {
    var b' := Step(b, t);
    assert forall id :: id in b'.runtime.timers ==> id in b.runtime.timers || b'.runtime.timers[id].EndDelay?;
    assert b'.runtime.listeners.Keys <= b.runtime.listeners.Keys;
    assert forall id :: id in b'.runtime.listeners ==> b'.runtime.listeners[id] == b.runtime.listeners[id];
  }

  lemma {:induction false} SuspendedRun(b: Bot, ticks: seq<Tick>)
    requires b.Is(Dead) && b.suspended && !CanBeRevived(b) && EnabledRun(b, ticks) && LeftAlone(ticks)
    ensures var b' := Run(b, ticks); b'.Is(Dead) && b'.suspended && !CanBeRevived(b') && b'.DeathCount() == b.DeathCount()
  {
    if ticks != [] {
      var before, t := ticks[..|ticks| - 1], ticks[|ticks| - 1];
      assert t in ticks && forall x :: x in before ==> x in ticks;
      SuspendedRun(b, before);
      SuspendedStep(Run(b, before), t);
    }
  }

  lemma OneTickRevives(b: Bot, t: Tick)
    requires Enabled(b, t) && !EndsSuspension(t.event) && !Step(b, t).Is(Dead)
    ensures !StaysDead(b)
  {
    assert [t][..0] == [];
    assert Run(b, []) == b && EnabledRun(b, []);
    assert EnabledRun(b, [t]) && LeftAlone([t]) && Run(b, [t]) == Step(b, t);
  }

  /**
   A suspended dead bot stays dead until a command or its own recovery, whatever the event loop
   does, if and only if no reconnect or exhaustion recovery is scheduled and no listener still
   awaits a first spawn.
   */
  lemma SuspensionHoldsIff(b: Bot)
    requires b.Is(Dead) && b.suspended
    ensures StaysDead(b) <==> !CanBeRevived(b)
  {
    if CanBeRevived(b) {
      if id: nat :| id in b.runtime.timers && Reconnects(b.runtime.timers[id]) {
        OneTickRevives(b, Tick(0, 0, Due(id, b.runtime.timers[id], false, false, true)));
      } else {
        var socket: nat :| socket in b.runtime.listeners && b.runtime.listeners[socket].awaitingSpawn;
        OneTickRevives(b, Tick(0, 0, Spawn(socket)));
      }
    } else {
      forall ticks | EnabledRun(b, ticks) && LeftAlone(ticks)
        ensures Run(b, ticks).Is(Dead)
      {
        SuspendedRun(b, ticks);
      }
    }
  }
}
