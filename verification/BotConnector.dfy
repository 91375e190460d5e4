/**
 The connector object: the maps and sets keyed by bot name and the handlers that update them in
 place. Each handler takes the bot it is called for through the matching step of BotLifecycle
 and leaves every other bot as it was.
 */
module BotConnector {
  import opened Collections
  import opened BotLifecycle

  function Lookup<T>(m: map<string, T>, name: string): Option<T> {
    if name in m then Some(m[name]) else None
  }

  class BotConnector {
    var registry: map<string, Info>
    var reconnectStrategies: map<string, Strategy>
    var reconnectTimers: map<string, nat>
    var deathTimestamps: map<string, seq<int>>
    var autoRespawnSuspended: set<string>
    var connectOptionsMap: map<string, ConnectOptions>
    var wasDebugging: set<string>
    /** Scheduled callbacks, attached listeners and reports, per bot. */
    var eventLoop: map<string, Runtime>

    constructor ()
      ensures forall name :: View(name) == Unknown
    {
      registry, reconnectStrategies, reconnectTimers := map[], map[], map[];
      deathTimestamps, autoRespawnSuspended, connectOptionsMap := map[], {}, map[];
      wasDebugging, eventLoop := {}, map[];
    }

    /** All that is remembered under one name. */
    function View(name: string): Bot
      reads this
    {
      Bot(Lookup(registry, name),
          Lookup(connectOptionsMap, name),
          Lookup(reconnectStrategies, name),
          Lookup(deathTimestamps, name).GetOr([]),
          name in autoRespawnSuspended,
          name in wasDebugging,
          Lookup(reconnectTimers, name),
          Loop(name))
    }

    function Loop(name: string): Runtime
      reads this
    {
      Lookup(eventLoop, name).GetOr(Unknown.runtime)
    }

    twostate predicate OnlyTouches(name: string)
      reads this
    {
      forall other :: other != name ==> View(other) == old(View(other))
    }

    method Report(name: string, notice: Notice)
      modifies this`eventLoop
      ensures View(name) == old(View(name)).Report(notice) && OnlyTouches(name)
    {
      eventLoop := eventLoop[name := Loop(name).Report(notice)];
    }

    method SetState(name: string, state: Phase)
      requires name in registry
      modifies this`registry
      ensures View(name) == old(View(name)).At(state) && OnlyTouches(name)
      ensures registry.Keys == old(registry).Keys
    {
      registry := registry[name := registry[name].(state := state)];
    }

    method DetachListeners(name: string, socket: nat)
      modifies this`eventLoop
      ensures View(name) == old(View(name)).(runtime := old(Loop(name)).Detach(socket)) && OnlyTouches(name)
    {
      eventLoop := eventLoop[name := Loop(name).Detach(socket)];
    }

    method SetTimeout(name: string, callback: Callback) returns (id: nat)
      modifies this`eventLoop
      ensures id == old(Loop(name)).nextId
      ensures View(name) == old(View(name)).(runtime := old(Loop(name)).Schedule(callback)) && OnlyTouches(name)
    {
      id := Loop(name).nextId;
      eventLoop := eventLoop[name := Loop(name).Schedule(callback)];
    }

    method ClearReconnectTimer(name: string)
      modifies this`eventLoop, this`reconnectTimers
      ensures View(name) == BotLifecycle.ClearReconnectTimer(old(View(name))) && OnlyTouches(name)
    {
      if name in reconnectTimers {
        eventLoop := eventLoop[name := Loop(name).Cancel(reconnectTimers[name])];
        reconnectTimers := reconnectTimers - {name};
      }
    }

    method Connect(name: string, options: ConnectOptions, created: bool)
      modifies this
      ensures View(name) == BotLifecycle.Connect(old(View(name)), options, created) && OnlyTouches(name)
    {
      connectOptionsMap := connectOptionsMap[name := options];
      assert OnlyTouches(name);
      if name in registry {
        SetState(name, Stopped);
        DetachListeners(name, registry[name].socket);
      }
      ClearReconnectTimer(name);
      if created {
        Install(name, options);
      }
    }

    method Install(name: string, options: ConnectOptions)
      modifies this
      ensures View(name) == BotLifecycle.Install(old(View(name)), options) && OnlyTouches(name)
    {
      var socket := Loop(name).nextId;
      var previousDeathCount := if name in registry then registry[name].deathCount else 0;
      eventLoop := eventLoop[name := Loop(name).FreshId()];
      registry := registry[name := Info(Connecting, socket, previousDeathCount)];
      if options.reconnectEnabled {
        var id := Loop(name).nextId;
        eventLoop := eventLoop[name := Loop(name).FreshId()];
        reconnectStrategies := reconnectStrategies[name := Strategy(id, 0, options.reconnectMaxRetries)];
      }
      eventLoop := eventLoop[name := Loop(name).Attach(socket, Listener(options, true))];
    }

    method Disconnect(name: string)
      modifies this
      ensures View(name) == BotLifecycle.Disconnect(old(View(name))) && OnlyTouches(name)
      ensures registry.Keys == old(registry).Keys
    {
      ClearReconnectTimer(name);
      reconnectStrategies := reconnectStrategies - {name};
      deathTimestamps := deathTimestamps - {name};
      autoRespawnSuspended := autoRespawnSuspended - {name};
      connectOptionsMap := connectOptionsMap - {name};
      wasDebugging := wasDebugging - {name};
      assert OnlyTouches(name);
      if name in registry {
        DetachListeners(name, registry[name].socket);
        SetState(name, Stopped);
      }
    }

    static function DisconnectedIf(b: Bot, registered: bool): Bot {
      if registered then BotLifecycle.Disconnect(b) else b
    }

    /** Every registered bot is disconnected, whatever the order, and nobody else is touched. */
    method DisconnectAll()
      modifies this
      ensures forall name :: View(name) == DisconnectedIf(old(View(name)), name in old(registry))
    {
      var names := registry.Keys;
      while names != {}
        invariant names <= registry.Keys == old(registry).Keys
        invariant forall name :: View(name) == DisconnectedIf(old(View(name)), name in old(registry) && name !in names)
        decreases names
      {
        var name :| name in names;
        Disconnect(name);
        names := names - {name};
      }
    }

    method ForceRespawn(name: string, writable: bool, respawned: bool, created: bool)
      modifies this
      ensures View(name) == BotLifecycle.ForceRespawn(old(View(name)), writable, respawned, created)
      ensures OnlyTouches(name)
    {
      autoRespawnSuspended := autoRespawnSuspended - {name};
      deathTimestamps := deathTimestamps - {name};
      assert OnlyTouches(name);
      if name !in registry {
        return;
      }
      if writable {
        SetState(name, Spawned);
        if respawned {
          Report(name, FORCE_RESPAWN);
          return;
        }
        Report(name, CLEANUP_ERROR);
      }
      if name in connectOptionsMap {
        Report(name, FORCE_RESPAWN);
        Connect(name, connectOptionsMap[name], created);
      }
    }

    method OnSpawn(name: string, socket: nat)
      modifies this
      ensures View(name) == BotLifecycle.OnSpawn(old(View(name)), socket) && OnlyTouches(name)
    {
      var loop := Loop(name);
      if socket in loop.listeners {
        eventLoop := eventLoop[name := loop.Attach(socket, loop.listeners[socket].(awaitingSpawn := false))];
      }
      assert OnlyTouches(name);
      if name in registry {
        if name in wasDebugging {
          SetState(name, Debugging);
          wasDebugging := wasDebugging - {name};
          assert OnlyTouches(name);
          Report(name, DEBUG_RESTORED);
        } else {
          SetState(name, Spawned);
        }
        if name in reconnectStrategies {
          reconnectStrategies := reconnectStrategies[name := reconnectStrategies[name].Reset()];
        }
        assert OnlyTouches(name);
        Report(name, SPAWNED);
      }
    }

    method RememberDebugging(name: string)
      requires name in registry
      modifies this`wasDebugging
      ensures View(name) == BotLifecycle.RememberDebugging(old(View(name))) && OnlyTouches(name)
    {
      if registry[name].state == Debugging {
        wasDebugging := wasDebugging + {name};
      }
    }

    method Die(name: string, options: ConnectOptions, now: int)
      requires name in registry
      modifies this
      ensures View(name) == BotLifecycle.Die(old(View(name)), options, now) && OnlyTouches(name)
    {
      RememberDebugging(name);
      SetState(name, Dead);
      registry := registry[name := registry[name].(deathCount := registry[name].deathCount + 1)];
      assert OnlyTouches(name);
      Report(name, DIED);
      HandleDeathRecovery(name, options, now);
    }

    method OnHealth(name: string, options: ConnectOptions, healthIsZero: bool, now: int)
      modifies this
      ensures View(name) == BotLifecycle.OnHealth(old(View(name)), options, healthIsZero, now) && OnlyTouches(name)
    {
      if name in registry && healthIsZero && registry[name].state != Dead && registry[name].state != Stopped {
        Die(name, options, now);
      }
    }

    method OnKicked(name: string, options: ConnectOptions, jitter: int)
      modifies this
      ensures View(name) == BotLifecycle.OnKicked(old(View(name)), options, jitter) && OnlyTouches(name)
    {
      if name !in registry {
        return;
      }
      if registry[name].state == Dead || registry[name].state == Stopped {
        Report(name, KICKED);
        return;
      }
      RememberDebugging(name);
      SetState(name, Disconnected);
      Report(name, KICKED);
      AttemptReconnect(name, options, jitter);
    }

    method OnEnd(name: string, options: ConnectOptions, lastY: Option<real>)
      modifies this
      ensures View(name) == BotLifecycle.OnEnd(old(View(name)), options, lastY) && OnlyTouches(name)
    {
      var _ := SetTimeout(name, EndDelay(lastY, options));
    }

    method EndDue(name: string, lastY: Option<real>, options: ConnectOptions, now: int, jitter: int)
      modifies this
      ensures View(name) == BotLifecycle.EndDue(old(View(name)), lastY, options, now, jitter) && OnlyTouches(name)
    {
      if name in registry && registry[name].state != Stopped && registry[name].state != Disconnected
         && registry[name].state != Dead
      {
        var hasRecentDeaths := |Lookup(deathTimestamps, name).GetOr([])| > 0;
        var isVoidDeath := (lastY.Some? && lastY.value < -64.0) || (lastY.None? && hasRecentDeaths);
        if isVoidDeath {
          Die(name, options, now);
          return;
        }
        if hasRecentDeaths {
          Die(name, options, now);
          return;
        }
        RememberDebugging(name);
        SetState(name, Disconnected);
        Report(name, DISCONNECTED);
        AttemptReconnect(name, options, jitter);
      }
    }

    method OnError(name: string, options: ConnectOptions, jitter: int)
      modifies this
      ensures View(name) == BotLifecycle.OnError(old(View(name)), options, jitter) && OnlyTouches(name)
    {
      if name in registry {
        Report(name, ERROR);
        if registry[name].state != Stopped && registry[name].state != Disconnected && registry[name].state != Dead {
          RememberDebugging(name);
          SetState(name, Disconnected);
          ghost var lost := View(name);
          assert lost.runtime.(log := lost.runtime.log + []) == lost.runtime;
          AttemptReconnect(name, options, jitter);
        }
      }
    }

    method OnDeath(name: string, options: ConnectOptions, now: int)
      modifies this
      ensures View(name) == BotLifecycle.OnDeath(old(View(name)), options, now) && OnlyTouches(name)
    {
      if name in registry && registry[name].state != Dead {
        Die(name, options, now);
      }
    }

    method OnRespawn(name: string, socket: nat)
      modifies this
      ensures View(name) == BotLifecycle.OnRespawn(old(View(name)), socket) && OnlyTouches(name)
    {
      if name in registry && registry[name].state == Dead {
        if name in autoRespawnSuspended {
          Report(name, RAPID_DEATH_DISCONNECT);
          DetachListeners(name, socket);
          SetState(name, Dead);
          return;
        }
        if name in wasDebugging {
          SetState(name, Debugging);
          wasDebugging := wasDebugging - {name};
          assert OnlyTouches(name);
          Report(name, DEBUG_RESTORED);
        } else {
          SetState(name, Spawned);
        }
      }
      Report(name, RESPAWNED);
    }

    method AttemptReconnect(name: string, options: ConnectOptions, jitter: int)
      modifies this
      ensures View(name) == BotLifecycle.AttemptReconnect(old(View(name)), options, jitter) && OnlyTouches(name)
    {
      if name !in reconnectStrategies {
        return;
      }
      var strategy := reconnectStrategies[name];
      if !strategy.ShouldReconnect() {
        ClearReconnectTimer(name);
        Report(name, RECONNECT_EXHAUSTED);
        var timer := SetTimeout(name, ExhaustionRecovery(strategy.id, options));
        reconnectTimers := reconnectTimers[name := timer];
        return;
      }
      strategy := strategy.RecordFailure();
      reconnectStrategies := reconnectStrategies[name := strategy];
      assert OnlyTouches(name);
      var timer := SetTimeout(name, Reconnect(strategy.NextDelayMs() + jitter, options));
      reconnectTimers := reconnectTimers[name := timer];
    }

    method HandleDeathRecovery(name: string, options: ConnectOptions, now: int)
      modifies this
      ensures View(name) == BotLifecycle.HandleDeathRecovery(old(View(name)), options, now) && OnlyTouches(name)
    {
      var timestamps := Lookup(deathTimestamps, name).GetOr([]) + [now];
      var recent := Since(timestamps, now - RAPID_DEATH_WINDOW_MS + 1);
      deathTimestamps := deathTimestamps[name := recent];
      assert OnlyTouches(name);
      if |recent| >= RAPID_DEATH_MAX {
        autoRespawnSuspended := autoRespawnSuspended + {name};
        assert OnlyTouches(name);
        Report(name, RAPID_DEATH);
        ClearReconnectTimer(name);
        var timer := SetTimeout(name, DeathRecovery(options));
        reconnectTimers := reconnectTimers[name := timer];
        return;
      }
      if options.autoRespawn && name !in autoRespawnSuspended {
        var _ := SetTimeout(name, AutoRespawn(options));
      }
    }

    method ReconnectDue(name: string, options: ConnectOptions, created: bool)
      modifies this
      ensures View(name) == BotLifecycle.ReconnectDue(old(View(name)), options, created) && OnlyTouches(name)
    {
      reconnectTimers := reconnectTimers - {name};
      Connect(name, options, created);
    }

    method ExhaustionDue(name: string, strategyId: nat, options: ConnectOptions, created: bool)
      modifies this
      ensures View(name) == BotLifecycle.ExhaustionDue(old(View(name)), strategyId, options, created)
      ensures OnlyTouches(name)
    {
      reconnectTimers := reconnectTimers - {name};
      if name in reconnectStrategies && reconnectStrategies[name].id == strategyId {
        reconnectStrategies := reconnectStrategies[name := reconnectStrategies[name].Reset()];
      }
      assert OnlyTouches(name);
      if name in registry && registry[name].state != Stopped {
        Report(name, RECONNECT_RECOVERY);
        Connect(name, options, created);
      }
    }

    method DeathRecoveryDue(name: string, options: ConnectOptions, created: bool)
      modifies this
      ensures View(name) == BotLifecycle.DeathRecoveryDue(old(View(name)), options, created) && OnlyTouches(name)
    {
      reconnectTimers := reconnectTimers - {name};
      autoRespawnSuspended := autoRespawnSuspended - {name};
      deathTimestamps := deathTimestamps - {name};
      assert OnlyTouches(name);
      if name in registry && registry[name].state != Stopped {
        Report(name, RAPID_DEATH_RECOVERY);
        Connect(name, options, created);
      }
    }

    method AutoRespawnDue(name: string, options: ConnectOptions, writable: bool, respawned: bool, jitter: int)
      modifies this
      ensures View(name) == BotLifecycle.AutoRespawnDue(old(View(name)), options, writable, respawned, jitter)
      ensures OnlyTouches(name)
    {
      if name in autoRespawnSuspended {
        return;
      }
      if name in registry && registry[name].state == Dead {
        if writable {
          if respawned {
            Report(name, AUTO_RESPAWN);
            return;
          }
          Report(name, CLEANUP_ERROR);
        }
        Report(name, AUTO_RESPAWN);
        AttemptReconnect(name, options, jitter);
      }
    }

    /** The event loop runs one event for one bot: the handler that is called is the model's step. */
    method Handle(name: string, t: Tick)
      modifies this
      ensures View(name) == Step(old(View(name)), t) && OnlyTouches(name)
    {
      match t.event
      case ConnectCall(options, created) => Connect(name, options, created);
      case DisconnectCall => Disconnect(name);
      case ForceRespawnCall(writable, respawned, created) => ForceRespawn(name, writable, respawned, created);
      case DebugEnter => if name in registry { SetState(name, Debugging); }
      case DebugExit => if name in registry { SetState(name, Spawned); }
      case Spawn(socket) => OnSpawn(name, socket);
      case Health(_, options, healthIsZero) => OnHealth(name, options, healthIsZero, t.now);
      case Death(_, options) => OnDeath(name, options, t.now);
      case Kicked(_, options) => OnKicked(name, options, t.jitter);
      case Failed(_, options) => OnError(name, options, t.jitter);
      case Ended(_, options, lastY) => OnEnd(name, options, lastY);
      case Respawn(socket) => OnRespawn(name, socket);
      case Due(id, _, _, _, _) => HandleDue(name, t);
    }

    method HandleDue(name: string, t: Tick)
      requires t.event.Due?
      modifies this
      ensures View(name) == Step(old(View(name)), t) && OnlyTouches(name)
    {
      eventLoop := eventLoop[name := Loop(name).Cancel(t.event.id)];
      RunDue(name, t);
    }

    method RunDue(name: string, t: Tick)
      requires t.event.Due?
      modifies this
      ensures View(name) == RunCallback(old(View(name)), t) && OnlyTouches(name)
    {
      match t.event.callback
      case Reconnect(_, options) => ReconnectDue(name, options, t.event.created);
      case ExhaustionRecovery(id, options) => ExhaustionDue(name, id, options, t.event.created);
      case DeathRecovery(options) => DeathRecoveryDue(name, options, t.event.created);
      case AutoRespawn(options) =>
        AutoRespawnDue(name, options, t.event.writable, t.event.respawned, t.jitter);
      case EndDelay(lastY, options) => EndDue(name, lastY, options, t.now, t.jitter);
    }
  }
}
