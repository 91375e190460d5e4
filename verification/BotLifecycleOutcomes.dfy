/**
 What each handler, command and callback leaves behind, field by field and in plain terms: when a
 step is a death, a loss of the connection, a new connection or nothing, which callback it
 schedules, and over runs, that a bot which lost its connection is never left without a retry.
 */
module BotLifecycleOutcomes {
  import opened Collections
  import opened BotLifecycle
  import opened BotLifecycleRuns
  import opened BotLifecycleTimers

  function PhaseOf(b: Bot): Option<Phase> {
    if b.info.Some? then Some(b.info.value.state) else None
  }

  /** CONNECTING, SPAWNED or DEBUGGING. */
  predicate Up(b: Bot) {
    PhaseOf(b) in {Some(Connecting), Some(Spawned), Some(Debugging)}
  }

  /** The wait before the retry that follows the given number of failures in a row. */
  function RetryDelayMs(failures: nat): int {
    if failures == 0 then 1000
    else if failures == 1 then 2000
    else if failures == 2 then 4000
    else if failures == 3 then 8000
    else if failures == 4 then 16_000
    else 30_000
  }

  lemma DelayIs(s: Strategy)
    ensures s.NextDelayMs() == RetryDelayMs(s.failures)
  {
    assert Pow2(0) == 1 && Pow2(1) == 2 && Pow2(2) == 4 && Pow2(3) == 8 && Pow2(4) == 16;
    if s.failures >= 5 {
      PowersGrow(5, s.failures);
    }
  }

  lemma {:induction false} PowersGrow(m: nat, n: nat)
    requires m <= n
    ensures Pow2(m) <= Pow2(n)
    decreases n
  {
    if m < n {
      PowersGrow(m, n - 1);
    }
  }

  // Outcomes

  ghost predicate SameListeners(b: Bot, b': Bot) {
    b'.options == b.options && b'.runtime.listeners == b.runtime.listeners
  }

  /** Exactly one callback is new; `timers` are those that stay. */
  ghost predicate Schedules(b: Bot, b': Bot, timers: map<nat, Callback>, cb: Callback) {
    b'.runtime.timers == timers[b.runtime.nextId := cb] && b'.runtime.nextId == b.runtime.nextId + 1
  }

  ghost predicate SchedulesNothing(b: Bot, b': Bot) {
    b'.runtime.timers == b.runtime.timers && b'.runtime.nextId == b.runtime.nextId
  }

  /** The callbacks that stay when the tracked one is cleared. */
  function WithoutTracked(b: Bot): map<nat, Callback> {
    if b.tracked.Some? then b.runtime.timers - {b.tracked.value} else b.runtime.timers
  }

  /** The entry that stays of `d`: nothing but its phase and death count changed. */
  ghost predicate Moved(b: Bot, b': Bot, p: Phase, deaths: nat) {
    b.info.Some? && b'.info == Some(Info(p, b.info.value.socket, b.info.value.deathCount + deaths))
  }

  /** Of the death times those less than a minute before `now` stay, with `now` added. */
  ghost predicate Window(b: Bot, b': Bot, now: int) {
    b'.deaths == Since(b.deaths + [now], now - 59_999)
  }

  /** A death: counted and reported; the fourth within a minute suspends and schedules the long recovery. */
  ghost predicate Died(b: Bot, b': Bot, options: ConnectOptions, now: int) {
    && Moved(b, b', Dead, 1) && Window(b, b', now)
    && b'.strategy == b.strategy && SameListeners(b, b')
    && (b'.wasDebugging <==> b.wasDebugging || PhaseOf(b) == Some(Debugging))
    && if |b'.deaths| >= 4
       then DiedRapidly(b, b', options)
       else DiedSlowly(b, b', options)
  }

  ghost predicate DiedRapidly(b: Bot, b': Bot, options: ConnectOptions) {
    && b'.suspended && b'.runtime.log == b.runtime.log + [DIED, RAPID_DEATH]
    && b'.tracked == Some(b.runtime.nextId) && Schedules(b, b', WithoutTracked(b), DeathRecovery(options))
  }

  ghost predicate DiedSlowly(b: Bot, b': Bot, options: ConnectOptions) {
    && b'.suspended == b.suspended && b'.runtime.log == b.runtime.log + [DIED] && b'.tracked == b.tracked
    && if options.autoRespawn && !b.suspended
       then Schedules(b, b', b.runtime.timers, AutoRespawn(options))
       else SchedulesNothing(b, b')
  }

  ghost predicate SameDeathRecords(b: Bot, b': Bot) {
    b'.deaths == b.deaths && b'.suspended == b.suspended
  }

  /** A retry after `notices`: the next one if any is left, otherwise the long recovery. */
  ghost predicate Retried(b: Bot, b': Bot, notices: seq<Notice>, options: ConnectOptions, jitter: int) {
    match b.strategy
    case None =>
      && b'.strategy == None && b'.tracked == b.tracked
      && SchedulesNothing(b, b') && b'.runtime.log == b.runtime.log + notices
    case Some(s) =>
      && b'.tracked == Some(b.runtime.nextId)
      && if s.failures < s.maxRetries then
           && b'.strategy == Some(Strategy(s.id, s.failures + 1, s.maxRetries))
           && b'.runtime.log == b.runtime.log + notices
           && Schedules(b, b', b.runtime.timers, Reconnect(RetryDelayMs(s.failures + 1) + jitter, options))
         else
           && b'.strategy == b.strategy
           && b'.runtime.log == b.runtime.log + notices + [RECONNECT_EXHAUSTED]
           && Schedules(b, b', WithoutTracked(b), ExhaustionRecovery(s.id, options))
  }

  /** A loss of the connection. */
  ghost predicate Lost(b: Bot, b': Bot, notices: seq<Notice>, options: ConnectOptions, jitter: int) {
    && Moved(b, b', Disconnected, 0) && SameDeathRecords(b, b') && SameListeners(b, b')
    && (b'.wasDebugging <==> b.wasDebugging || PhaseOf(b) == Some(Debugging))
    && Retried(b, b', notices, options, jitter)
  }

  /** Nothing but reports. */
  ghost predicate Reports(b: Bot, b': Bot, notices: seq<Notice>) {
    b' == b.(runtime := b.runtime.(log := b.runtime.log + notices))
  }

  /** A new client, or the old one stopped when creating the new one throws. */
  ghost predicate Connects(b: Bot, b': Bot, notices: seq<Notice>, options: ConnectOptions, created: bool) {
    && b'.options == Some(options) && SameDeathRecords(b, b') && b'.wasDebugging == b.wasDebugging
    && b'.tracked == None && b'.runtime.timers == WithoutTracked(b) && b'.runtime.log == b.runtime.log + notices
    && if created then NewClient(b, b', options) else OldClientStopped(b, b')
  }

  ghost predicate NewClient(b: Bot, b': Bot, options: ConnectOptions) {
    var socket, deaths := b.runtime.nextId, if b.info.Some? then b.info.value.deathCount else 0;
    && b'.info == Some(Info(Connecting, socket, deaths))
    && b'.runtime.listeners == OtherListeners(b)[socket := Listener(options, true)]
    && (if options.reconnectEnabled
        then b'.strategy == Some(Strategy(socket + 1, 0, options.reconnectMaxRetries)) && b'.runtime.nextId == socket + 2
        else b'.strategy == b.strategy && b'.runtime.nextId == socket + 1)
  }

  ghost predicate OldClientStopped(b: Bot, b': Bot) {
    && (if b.info.Some? then Moved(b, b', Stopped, 0) else b'.info == None)
    && b'.runtime.listeners == OtherListeners(b)
    && b'.strategy == b.strategy && b'.runtime.nextId == b.runtime.nextId
  }

  /** The listeners of all clients but the current one. */
  function OtherListeners(b: Bot): map<nat, Listener> {
    if b.info.Some? then b.runtime.listeners - {b.info.value.socket} else b.runtime.listeners
  }

  // The parts

  lemma DieOutcome(b: Bot, options: ConnectOptions, now: int)
    requires b.info.Some?
    ensures Died(b, Die(b, options, now), options, now)
  {
    var b1, b' := MarkDead(b), Die(b, options, now);
    RecoveryOutcome(b1, options, now);
    assert b.runtime.log + [DIED, RAPID_DEATH] == b.runtime.log + [DIED] + [RAPID_DEATH];
  }

  lemma RecoveryOutcome(b: Bot, options: ConnectOptions, now: int)
    ensures var b' := HandleDeathRecovery(b, options, now);
            && b'.info == b.info && b'.wasDebugging == b.wasDebugging && Window(b, b', now)
            && b'.strategy == b.strategy && SameListeners(b, b')
            && if |b'.deaths| >= 4 then
                 && b'.suspended && b'.runtime.log == b.runtime.log + [RAPID_DEATH]
                 && b'.tracked == Some(b.runtime.nextId) && Schedules(b, b', WithoutTracked(b), DeathRecovery(options))
               else
                 && b'.suspended == b.suspended && b'.runtime.log == b.runtime.log && b'.tracked == b.tracked
                 && if options.autoRespawn && !b.suspended
                    then Schedules(b, b', b.runtime.timers, AutoRespawn(options))
                    else SchedulesNothing(b, b')
  {
  }

  lemma RetryOutcome(b: Bot, options: ConnectOptions, jitter: int)
    ensures var b' := AttemptReconnect(b, options, jitter);
            && b'.info == b.info && b'.wasDebugging == b.wasDebugging
            && SameDeathRecords(b, b') && SameListeners(b, b')
            && Retried(b, b', [], options, jitter)
  {
    assert b.runtime.log + [] == b.runtime.log;
    if b.strategy.Some? {
      DelayIs(b.strategy.value.RecordFailure());
    }
  }

  lemma LoseOutcome(b: Bot, notices: seq<Notice>, options: ConnectOptions, jitter: int)
    requires b.info.Some?
    ensures Lost(b, Lose(b, notices, options, jitter), notices, options, jitter)
  {
    var b1 := RememberDebugging(b).At(Disconnected);
    var b2 := b1.(runtime := b1.runtime.(log := b1.runtime.log + notices));
    RetryOutcome(b2, options, jitter);
    assert b2.runtime.log + [] == b.runtime.log + notices;
  }

  lemma ConnectsOutcome(b: Bot, notices: seq<Notice>, options: ConnectOptions, created: bool)
    ensures var b1 := b.(runtime := b.runtime.(log := b.runtime.log + notices));
            Connects(b, Connect(b1, options, created), notices, options, created)
  {
    var b1 := b.(runtime := b.runtime.(log := b.runtime.log + notices));
    var b2 := Cleared(b1, options);
    assert Connect(b1, options, created) == if created then Install(b2, options) else b2;
    InstallOutcome(b2, options);
  }

  /** The bot when its old client is stopped and its tracked timer cleared. */
  function Cleared(b: Bot, options: ConnectOptions): Bot {
    var info := if b.info.Some? then Some(Info(Stopped, b.info.value.socket, b.info.value.deathCount)) else None;
    b.(options := Some(options), info := info, tracked := None,
       runtime := b.runtime.(timers := WithoutTracked(b), listeners := OtherListeners(b)))
  }

  lemma InstallOutcome(b: Bot, options: ConnectOptions)
    ensures var b', socket := Install(b, options), b.runtime.nextId;
            && b' == b.(info := b'.info, strategy := b'.strategy, runtime := b'.runtime)
            && b'.info == Some(Info(Connecting, socket, if b.info.Some? then b.info.value.deathCount else 0))
            && b'.runtime.timers == b.runtime.timers && b'.runtime.log == b.runtime.log
            && b'.runtime.listeners == b.runtime.listeners[socket := Listener(options, true)]
            && (if options.reconnectEnabled
                then b'.strategy == Some(Strategy(socket + 1, 0, options.reconnectMaxRetries)) && b'.runtime.nextId == socket + 2
                else b'.strategy == b.strategy && b'.runtime.nextId == socket + 1)
  {
  }

  // Handlers

  /** Zero health is a death of every bot that is neither dead nor stopped. */
  lemma HealthOutcome(b: Bot, t: Tick)
    requires t.event.Health?
    ensures if t.event.healthIsZero && b.info.Some? && PhaseOf(b) !in {Some(Dead), Some(Stopped)}
            then Died(b, Step(b, t), t.event.options, t.now)
            else Step(b, t) == b
  {
    if b.info.Some? {
      DieOutcome(b, t.event.options, t.now);
    }
  }

  /** A death event is a death of every known bot that is not dead. */
  lemma DeathOutcome(b: Bot, t: Tick)
    requires t.event.Death?
    ensures if b.info.Some? && PhaseOf(b) != Some(Dead)
            then Died(b, Step(b, t), t.event.options, t.now)
            else Step(b, t) == b
  {
    if b.info.Some? {
      DieOutcome(b, t.event.options, t.now);
    }
  }

  lemma KickOutcome(b: Bot, t: Tick)
    requires t.event.Kicked?
    ensures if b.info.None? then Step(b, t) == b
            else if PhaseOf(b) in {Some(Dead), Some(Stopped)} then Reports(b, Step(b, t), [KICKED])
            else Lost(b, Step(b, t), [KICKED], t.event.options, t.jitter)
  {
    if b.info.Some? {
      LoseOutcome(b, [KICKED], t.event.options, t.jitter);
    }
  }

  lemma ErrorOutcome(b: Bot, t: Tick)
    requires t.event.Failed?
    ensures if b.info.None? then Step(b, t) == b
            else if Up(b) then Lost(b, Step(b, t), [ERROR], t.event.options, t.jitter)
            else Reports(b, Step(b, t), [ERROR])
  {
    if b.info.Some? {
      LoseOutcome(b.Report(ERROR), [], t.event.options, t.jitter);
      assert b.runtime.log + [ERROR] + [] == b.runtime.log + [ERROR];
    }
  }

  /** The end of a connection is only noted: its handling is scheduled. */
  lemma EndedOutcome(b: Bot, t: Tick)
    requires t.event.Ended?
    ensures var b' := Step(b, t);
            && b' == b.(runtime := b'.runtime) && SameListeners(b, b') && b'.runtime.log == b.runtime.log
            && Schedules(b, b', b.runtime.timers, EndDelay(t.event.lastY, t.event.options))
  {
  }

  /** The height tells a death below the world, or there were deaths in the last minute. */
  predicate EndIsDeath(b: Bot, lastY: Option<real>) {
    (lastY.Some? && lastY.value < -64.0) || b.deaths != []
  }

  /** The bot without the callback that runs. */
  function Forgotten(b: Bot, id: nat): Bot {
    b.(runtime := b.runtime.(timers := b.runtime.timers - {id}))
  }

  /**
   The delayed end of a connection: in CONNECTING, SPAWNED and DEBUGGING a death if the last height
   was below -64 or there are recent deaths, otherwise a loss that is reported as DISCONNECTED
   and retried; in every other phase nothing.
   */
  lemma EndOutcome(b: Bot, t: Tick)
    requires t.event.Due? && t.event.callback.EndDelay?
    ensures var b0, b', cb := Forgotten(b, t.event.id), Step(b, t), t.event.callback;
            && (b'.Is(Dead) && !b.Is(Dead) <==> Up(b) && EndIsDeath(b, cb.lastY))
            && (if !Up(b) then b' == b0
                else if EndIsDeath(b, cb.lastY) then Died(b0, b', cb.options, t.now)
                else Lost(b0, b', [DISCONNECTED], cb.options, t.jitter))
  {
    var b0, cb := Forgotten(b, t.event.id), t.event.callback;
    EndDueOutcome(b0, cb.lastY, cb.options, t.now, t.jitter);
  }

  lemma EndDueOutcome(b: Bot, lastY: Option<real>, options: ConnectOptions, now: int, jitter: int)
    ensures var b' := EndDue(b, lastY, options, now, jitter);
            if !Up(b) then b' == b
            else if EndIsDeath(b, lastY) then Died(b, b', options, now)
            else Lost(b, b', [DISCONNECTED], options, jitter)
  {
    if Up(b) {
      if EndIsDeath(b, lastY) {
        DieOutcome(b, options, now);
      } else {
        LoseOutcome(b, [DISCONNECTED], options, jitter);
      }
    }
  }

  /** The first spawn of a client makes every known bot live, in the mode it was in before. */
  lemma SpawnOutcome(b: Bot, t: Tick)
    requires t.event.Spawn? && b.info.Some?
    ensures var b', socket := Step(b, t), t.event.socket;
            && Moved(b, b', if b.wasDebugging then Debugging else Spawned, 0) && !b'.wasDebugging
            && b'.runtime.log == b.runtime.log + (if b.wasDebugging then [DEBUG_RESTORED, SPAWNED] else [SPAWNED])
            && (if b.strategy.None? then b'.strategy == None
                else b'.strategy == Some(Strategy(b.strategy.value.id, 0, b.strategy.value.maxRetries)))
            && SameDeathRecords(b, b') && b'.options == b.options && b'.tracked == b.tracked && SchedulesNothing(b, b')
            && b'.runtime.listeners == (if socket in b.runtime.listeners
                                        then b.runtime.listeners[socket := Listener(b.runtime.listeners[socket].options, false)]
                                        else b.runtime.listeners)
  {
    assert b.runtime.log + [DEBUG_RESTORED, SPAWNED] == b.runtime.log + [DEBUG_RESTORED] + [SPAWNED];
  }

  lemma UnknownSpawnOutcome(b: Bot, t: Tick)
    requires t.event.Spawn? && b.info.None?
    ensures Step(b, t) == b.(runtime := Step(b, t).runtime)
    ensures SchedulesNothing(b, Step(b, t)) && Step(b, t).runtime.log == b.runtime.log
  {
  }

  /** A server respawn revives a dead bot that is not suspended, and cuts off a suspended one. */
  lemma RespawnOutcome(b: Bot, t: Tick)
    requires t.event.Respawn?
    ensures var b', socket := Step(b, t), t.event.socket;
            if PhaseOf(b) != Some(Dead) then Reports(b, b', [RESPAWNED])
            else if b.suspended then
              b' == b.(runtime := b.runtime.(listeners := b.runtime.listeners - {socket},
                                             log := b.runtime.log + [RAPID_DEATH_DISCONNECT]))
            else Revived(b, b')
  {
    assert b.runtime.log + [DEBUG_RESTORED, RESPAWNED] == b.runtime.log + [DEBUG_RESTORED] + [RESPAWNED];
  }

  ghost predicate Revived(b: Bot, b': Bot) {
    && Moved(b, b', if b.wasDebugging then Debugging else Spawned, 0) && !b'.wasDebugging
    && b'.runtime.log == b.runtime.log + (if b.wasDebugging then [DEBUG_RESTORED, RESPAWNED] else [RESPAWNED])
    && b'.strategy == b.strategy && b'.tracked == b.tracked
    && SameDeathRecords(b, b') && SameListeners(b, b') && SchedulesNothing(b, b')
  }

  // Commands

  /** The bot with no recent deaths and not suspended. */
  function Pardoned(b: Bot): Bot {
    b.(suspended := false, deaths := [])
  }

  /** A forced respawn in the game, or if that is not possible a new connection when the options are known. */
  lemma ForceRespawnOutcome(b: Bot, t: Tick)
    requires t.event.ForceRespawnCall?
    ensures var b0, b', e := Pardoned(b), Step(b, t), t.event;
            if b.info.None? then b' == b0
            else if e.writable && e.respawned then
              && Moved(b, b', Spawned, 0) && b' == b0.(info := b'.info, runtime := b'.runtime)
              && SchedulesNothing(b, b') && SameListeners(b, b') && b'.runtime.log == b.runtime.log + [FORCE_RESPAWN]
            else
              var b1 := if e.writable then Failing(b0) else b0;
              if b.options.None? then b' == b1
              else Connects(b1, b', [FORCE_RESPAWN], b.options.value, e.created)
  {
    var b0, e := Pardoned(b), t.event;
    if b.info.Some? && b.options.Some? && !(e.writable && e.respawned) {
      var b1 := if e.writable then Failing(b0) else b0;
      ConnectsOutcome(b1, [FORCE_RESPAWN], b.options.value, e.created);
    }
  }

  /** What a respawn that throws leaves: SPAWNED, and an error report. */
  function Failing(b: Bot): Bot
    requires b.info.Some?
  {
    b.(info := Some(Info(Spawned, b.info.value.socket, b.info.value.deathCount)),
       runtime := b.runtime.(log := b.runtime.log + [CLEANUP_ERROR]))
  }

  lemma ConnectCallOutcome(b: Bot, t: Tick)
    requires t.event.ConnectCall?
    ensures Connects(b, Step(b, t), [], t.event.options, t.event.created)
  {
    ConnectsOutcome(b, [], t.event.options, t.event.created);
    assert b.runtime.log + [] == b.runtime.log;
  }

  /** A disconnect forgets everything but the entry, which is stopped. */
  lemma DisconnectOutcome(b: Bot, t: Tick)
    requires t.event.DisconnectCall?
    ensures var b' := Step(b, t);
            && b' == Bot(b'.info, None, None, [], false, false, None, b'.runtime)
            && (if b.info.Some? then Moved(b, b', Stopped, 0) else b'.info == None)
            && b'.runtime == Runtime(WithoutTracked(b), OtherListeners(b), b.runtime.nextId, b.runtime.log)
  {
  }

  lemma DebugOutcome(b: Bot, t: Tick)
    requires t.event.DebugEnter? || t.event.DebugExit?
    ensures var b' := Step(b, t);
            && b' == b.(info := b'.info)
            && if b.info.Some? then Moved(b, b', if t.event.DebugEnter? then Debugging else Spawned, 0) else b'.info == None
  {
  }

  // Callbacks

  lemma ReconnectOutcome(b: Bot, t: Tick)
    requires t.event.Due? && t.event.callback.Reconnect?
    ensures Connects(Forgotten(b, t.event.id).(tracked := None), Step(b, t), [], t.event.callback.options, t.event.created)
  {
    var b0 := Forgotten(b, t.event.id).(tracked := None);
    ConnectsOutcome(b0, [], t.event.callback.options, t.event.created);
    assert b0.runtime.log + [] == b0.runtime.log;
  }

  /** The strategy that the callback captured starts over, if it is still the current one. */
  function StartedOver(b: Bot, strategyId: nat): Bot {
    if b.strategy.Some? && b.strategy.value.id == strategyId
    then b.(strategy := Some(Strategy(strategyId, 0, b.strategy.value.maxRetries)))
    else b
  }

  /** After exhausted retries every known bot that is not stopped connects again. */
  lemma ExhaustionOutcome(b: Bot, t: Tick)
    requires t.event.Due? && t.event.callback.ExhaustionRecovery?
    ensures var cb := t.event.callback;
            var b0 := StartedOver(Forgotten(b, t.event.id).(tracked := None), cb.strategyId);
            if b.info.None? || PhaseOf(b) == Some(Stopped) then Step(b, t) == b0
            else Connects(b0, Step(b, t), [RECONNECT_RECOVERY], cb.options, t.event.created)
  {
    var cb := t.event.callback;
    var b0 := StartedOver(Forgotten(b, t.event.id).(tracked := None), cb.strategyId);
    ConnectsOutcome(b0, [RECONNECT_RECOVERY], cb.options, t.event.created);
  }

  /** The recovery after rapid deaths pardons the bot, which connects again unless stopped. */
  lemma DeathRecoveryOutcome(b: Bot, t: Tick)
    requires t.event.Due? && t.event.callback.DeathRecovery?
    ensures var b0 := Pardoned(Forgotten(b, t.event.id).(tracked := None));
            if b.info.None? || PhaseOf(b) == Some(Stopped) then Step(b, t) == b0
            else Connects(b0, Step(b, t), [RAPID_DEATH_RECOVERY], t.event.callback.options, t.event.created)
  {
    var b0 := Pardoned(Forgotten(b, t.event.id).(tracked := None));
    ConnectsOutcome(b0, [RAPID_DEATH_RECOVERY], t.event.callback.options, t.event.created);
  }

  /** A delayed respawn asks in the game, or else retries the connection; it never changes the phase. */
  lemma AutoRespawnOutcome(b: Bot, t: Tick)
    requires t.event.Due? && t.event.callback.AutoRespawn?
    ensures var b0, b', e := Forgotten(b, t.event.id), Step(b, t), t.event;
            if PhaseOf(b) != Some(Dead) || b.suspended then b' == b0
            else if e.writable && e.respawned then Reports(b0, b', [AUTO_RESPAWN])
            else
              && b'.info == b.info && b'.wasDebugging == b.wasDebugging
              && SameDeathRecords(b, b') && SameListeners(b, b')
              && Retried(b0, b', if e.writable then [CLEANUP_ERROR, AUTO_RESPAWN] else [AUTO_RESPAWN],
                         e.callback.options, t.jitter)
  {
    var b0, e := Forgotten(b, t.event.id), t.event;
    var notices := if e.writable then [CLEANUP_ERROR, AUTO_RESPAWN] else [AUTO_RESPAWN];
    var b1 := b0.(runtime := b0.runtime.(log := b0.runtime.log + notices));
    assert b0.runtime.log + [CLEANUP_ERROR, AUTO_RESPAWN] == b0.runtime.log + [CLEANUP_ERROR] + [AUTO_RESPAWN];
    assert b1.runtime.log + [] == b1.runtime.log;
    RetryOutcome(b1, e.callback.options, t.jitter);
  }

  // Phases over whole runs

  /** What counts as a death, event by event. */
  predicate NoticesDeath(b: Bot, t: Tick) {
    match t.event
    case Health(_, _, healthIsZero) => healthIsZero && b.info.Some? && PhaseOf(b) !in {Some(Dead), Some(Stopped)}
    case Death(_, _) => b.info.Some? && PhaseOf(b) != Some(Dead)
    case Due(_, cb, _, _, _) => cb.EndDelay? && Up(b) && EndIsDeath(b, cb.lastY)
    case _ => false
  }

  /** What counts as a loss of the connection. */
  predicate NoticesLoss(b: Bot, t: Tick) {
    match t.event
    case Kicked(_, _) => Up(b) || PhaseOf(b) == Some(Disconnected)
    case Failed(_, _) => Up(b)
    case Due(_, cb, _, _, _) => cb.EndDelay? && Up(b) && !EndIsDeath(b, cb.lastY)
    case _ => false
  }

  /** A step leads into DEAD, or into DISCONNECTED, exactly when it notices a death or a loss. */
  ghost predicate EntersAsNoticed(b: Bot, t: Tick) {
    && (!b.Is(Dead) && Step(b, t).Is(Dead) <==> NoticesDeath(b, t))
    && (!b.Is(Disconnected) && Step(b, t).Is(Disconnected) <==> !b.Is(Disconnected) && NoticesLoss(b, t))
  }

  lemma CallbackEnters(b: Bot, t: Tick)
    requires t.event.Due?
    ensures EntersAsNoticed(b, t)
  {
    match t.event.callback
    case Reconnect(_, _) => ReconnectOutcome(b, t);
    case ExhaustionRecovery(_, _) => ExhaustionOutcome(b, t);
    case DeathRecovery(_) => DeathRecoveryOutcome(b, t);
    case AutoRespawn(_) => AutoRespawnOutcome(b, t);
    case EndDelay(_, _) => EndOutcome(b, t);
  }

  lemma CommandEnters(b: Bot, t: Tick)
    requires t.event.ConnectCall? || IsCommand(t.event)
    ensures EntersAsNoticed(b, t)
  {
    match t.event
    case ConnectCall(_, _) => ConnectCallOutcome(b, t);
    case DisconnectCall => DisconnectOutcome(b, t);
    case ForceRespawnCall(_, _, _) => ForceRespawnOutcome(b, t);
    case _ => DebugOutcome(b, t);
  }

  lemma StepEntersAsNoticed(b: Bot, t: Tick)
    ensures EntersAsNoticed(b, t)
  {
    match t.event
    case Health(_, _, _) => HealthOutcome(b, t);
    case Death(_, _) => DeathOutcome(b, t);
    case Kicked(_, _) => KickOutcome(b, t);
    case Failed(_, _) => ErrorOutcome(b, t);
    case Ended(_, _, _) => EndedOutcome(b, t);
    case Respawn(_) => RespawnOutcome(b, t);
    case Spawn(_) => if b.info.Some? { SpawnOutcome(b, t); } else { UnknownSpawnOutcome(b, t); }
    case Due(_, _, _, _, _) => CallbackEnters(b, t);
    case _ => CommandEnters(b, t);
  }

  function DeathsNoticed(b: Bot, ticks: seq<Tick>): nat {
    if ticks == [] then 0
    else
      var before := ticks[..|ticks| - 1];
      DeathsNoticed(b, before) + if NoticesDeath(Run(b, before), ticks[|ticks| - 1]) then 1 else 0
  }

  lemma {:induction false} EntriesAreNoticed(b: Bot, ticks: seq<Tick>)
    ensures CountDeaths(b, ticks) == DeathsNoticed(b, ticks)
  {
    if ticks != [] {
      var before := ticks[..|ticks| - 1];
      EntriesAreNoticed(b, before);
      StepEntersAsNoticed(Run(b, before), ticks[|ticks| - 1]);
    }
  }

  /** In every run the deaths counted and reported are exactly those that some event told of. */
  lemma DeathsAreThoseNoticed(ticks: seq<Tick>)
    ensures var b := Run(Unknown, ticks);
            && b.DeathCount() == DeathsNoticed(Unknown, ticks)
            && CountDied(b.runtime.log) == DeathsNoticed(Unknown, ticks)
  {
    DeathAccountingIsExact(ticks);
    EntriesAreNoticed(Unknown, ticks);
  }

  // A lost bot is retried

  predicate Reconnecting(cb: Callback) {
    cb.Reconnect? || cb.ExhaustionRecovery?
  }

  /** A bot that lost its connection and may retry has a callback that will connect it. */
  ghost predicate IsRetried(b: Bot) {
    PhaseOf(b) == Some(Disconnected) && b.strategy.Some? ==>
      exists id: nat :: id in b.runtime.timers && Reconnecting(b.runtime.timers[id])
  }

  lemma LossIsRetried(b: Bot, b': Bot, notices: seq<Notice>, options: ConnectOptions, jitter: int)
    requires Lost(b, b', notices, options, jitter)
    ensures IsRetried(b')
  {
    if b'.strategy.Some? {
      assert b.runtime.nextId in b'.runtime.timers && Reconnecting(b'.runtime.timers[b.runtime.nextId]);
    }
  }

  /** Nothing that reconnects goes, nothing is newly lost. */
  lemma StaysRetried(b: Bot, b': Bot)
    requires IsRetried(b)
    requires PhaseOf(b') == Some(Disconnected) ==> PhaseOf(b) == Some(Disconnected) && (b'.strategy.Some? ==> b.strategy.Some?)
    requires forall id :: id in b.runtime.timers && Reconnecting(b.runtime.timers[id]) ==>
               id in b'.runtime.timers && b'.runtime.timers[id] == b.runtime.timers[id]
    ensures IsRetried(b')
  {
  }

  lemma CallbackKeepsRetried(b: Bot, t: Tick)
    requires IsRetried(b) && Enabled(b, t) && t.event.Due?
    ensures IsRetried(Step(b, t))
  {
    var b0, cb := Forgotten(b, t.event.id), t.event.callback;
    match cb
    case Reconnect(_, _) => ReconnectOutcome(b, t);
    case ExhaustionRecovery(_, _) => ExhaustionOutcome(b, t);
    case DeathRecovery(_) => DeathRecoveryOutcome(b, t);
    case AutoRespawn(_) =>
      AutoRespawnOutcome(b, t);
      if PhaseOf(b) == Some(Disconnected) {
        StaysRetried(b, Step(b, t));
      }
    case EndDelay(_, options) =>
      EndOutcome(b, t);
      if !Up(b) {
        StaysRetried(b, Step(b, t));
      } else if !EndIsDeath(b, cb.lastY) {
        LossIsRetried(b0, Step(b, t), [DISCONNECTED], options, t.jitter);
      }
  }

  lemma CommandKeepsRetried(b: Bot, t: Tick)
    requires IsRetried(b) && (t.event.ConnectCall? || IsCommand(t.event))
    ensures IsRetried(Step(b, t))
  {
    match t.event
    case ConnectCall(_, _) => ConnectCallOutcome(b, t);
    case DisconnectCall => DisconnectOutcome(b, t);
    case ForceRespawnCall(_, _, _) => ForceRespawnOutcome(b, t);
    case _ => DebugOutcome(b, t);
  }

  lemma LosingKeepsRetried(b: Bot, t: Tick)
    requires IsRetried(b) && (t.event.Kicked? || t.event.Failed?)
    ensures IsRetried(Step(b, t))
  {
    if t.event.Kicked? {
      KickOutcome(b, t);
      if Up(b) || PhaseOf(b) == Some(Disconnected) {
        LossIsRetried(b, Step(b, t), [KICKED], t.event.options, t.jitter);
      }
    } else {
      ErrorOutcome(b, t);
      if Up(b) {
        LossIsRetried(b, Step(b, t), [ERROR], t.event.options, t.jitter);
      }
    }
  }

  lemma StepKeepsRetried(b: Bot, t: Tick)
    requires Inv(b) && IsRetried(b) && Enabled(b, t)
    ensures IsRetried(Step(b, t))
  {
    match t.event
    case Health(_, _, _) => HealthOutcome(b, t);
    case Death(_, _) => DeathOutcome(b, t);
    case Ended(_, _, _) =>
      EndedOutcome(b, t);
      assert b.runtime.nextId !in b.runtime.timers;
      StaysRetried(b, Step(b, t));
    case Respawn(_) => RespawnOutcome(b, t);
    case Spawn(_) => if b.info.Some? { SpawnOutcome(b, t); } else { UnknownSpawnOutcome(b, t); }
    case Due(_, _, _, _, _) => CallbackKeepsRetried(b, t);
    case Kicked(_, _) => LosingKeepsRetried(b, t);
    case Failed(_, _) => LosingKeepsRetried(b, t);
    case _ => CommandKeepsRetried(b, t);
  }

  /**
   In every run that the event loop allows: a bot that is DISCONNECTED and may reconnect has a
   callback scheduled that will connect it, however often kicks, errors, ends and stray
   callbacks came before.
   */
  lemma {:induction false} LostBotIsRetried(ticks: seq<Tick>)
    requires EnabledRun(Unknown, ticks) && forall t :: t in ticks ==> JitterInRange(t)
    ensures IsRetried(Run(Unknown, ticks))
  {
    if ticks != [] {
      var before, t := ticks[..|ticks| - 1], ticks[|ticks| - 1];
      assert forall x :: x in before ==> x in ticks;
      LostBotIsRetried(before);
      ReachableStatesSatisfyInv(before);
      StepKeepsRetried(Run(Unknown, before), t);
    }
  }
}
