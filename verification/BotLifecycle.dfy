/**
 The lifecycle of one bot: what each socket handler, command and timer callback of the
 connector does to everything the connector remembers under that bot's name. One handler
 or callback is one atomic step, since none of them awaits.
 */
module BotLifecycle {
  import opened Collections

  datatype Phase = Connecting | Spawned | Debugging | Dead | Disconnected | Stopped

  datatype ConnectOptions = ConnectOptions(
    reconnectEnabled: bool,
    reconnectMaxRetries: int,
    autoRespawn: bool)

  /** A registry entry; `socket` identifies the client object created by one connect. */
  datatype Info = Info(state: Phase, socket: nat, deathCount: nat)

  /** A reconnect strategy object; `id` stands for its identity, which callbacks capture. */
  datatype Strategy = Strategy(id: nat, failures: nat, maxRetries: int) {
    predicate ShouldReconnect() { failures < maxRetries }
    function RecordFailure(): Strategy { this.(failures := failures + 1) }
    function Reset(): Strategy { this.(failures := 0) }
    function NextDelayMs(): int { Min(RECONNECT_BASE_DELAY_MS * Pow2(failures), RECONNECT_MAX_DELAY_MS) }
  }

  /** A scheduled callback together with what its closure captured. */
  datatype Callback =
    | Reconnect(delayMs: int, options: ConnectOptions)
    | ExhaustionRecovery(strategyId: nat, options: ConnectOptions)
    | DeathRecovery(options: ConnectOptions)
    | AutoRespawn(options: ConnectOptions)
    | EndDelay(lastY: Option<real>, options: ConnectOptions)

  /** The listeners of one socket; `awaitingSpawn` is the once-listener for the first spawn. */
  datatype Listener = Listener(options: ConnectOptions, awaitingSpawn: bool)

  /** The event names the connector reports. */
  datatype Notice =
    | SPAWNED | DIED | KICKED | DISCONNECTED | ERROR | RESPAWNED | DEBUG_RESTORED
    | AUTO_RESPAWN | FORCE_RESPAWN | CLEANUP_ERROR
    | RAPID_DEATH | RAPID_DEATH_DISCONNECT | RAPID_DEATH_RECOVERY
    | RECONNECT_EXHAUSTED | RECONNECT_RECOVERY

  const RECONNECT_BASE_DELAY_MS := 1000
  const RECONNECT_MAX_DELAY_MS := 30_000
  const RECONNECT_JITTER_MAX_MS := 3000
  const RAPID_DEATH_MAX := 4
  const RAPID_DEATH_WINDOW_MS := 60_000

  /** Everything kept for one name: registry entry, the six maps and sets, and the event loop's view. */
  datatype Bot = Bot(
    info: Option<Info>,
    options: Option<ConnectOptions>,
    strategy: Option<Strategy>,
    deaths: seq<int>,
    suspended: bool,
    wasDebugging: bool,
    tracked: Option<nat>,
    runtime: Runtime)
  {
    predicate Is(p: Phase) { info.Some? && info.value.state == p }
    predicate Live() { Is(Spawned) || Is(Debugging) }
    function DeathCount(): nat { if info.Some? then info.value.deathCount else 0 }
    function At(p: Phase): Bot
      requires info.Some?
    { this.(info := Some(info.value.(state := p))) }
    function Report(n: Notice): Bot { this.(runtime := runtime.Report(n)) }
  }

  /** Scheduled callbacks, attached listeners, the next unused identity and the reports made. */
  datatype Runtime = Runtime(
    timers: map<nat, Callback>,
    listeners: map<nat, Listener>,
    nextId: nat,
    log: seq<Notice>)
  {
    function Report(n: Notice): Runtime { this.(log := log + [n]) }
    function Schedule(cb: Callback): Runtime { this.(timers := timers[nextId := cb], nextId := nextId + 1) }
    function Cancel(id: nat): Runtime { this.(timers := timers - {id}) }
    function Detach(socket: nat): Runtime { this.(listeners := listeners - {socket}) }
    function Attach(socket: nat, l: Listener): Runtime { this.(listeners := listeners[socket := l]) }
    function FreshId(): Runtime { this.(nextId := nextId + 1) }
  }

  const Unknown := Bot(None, None, None, [], false, false, None, Runtime(map[], map[], 0, []))

  function Pow2(n: nat): nat {
    if n == 0 then 1 else 2 * Pow2(n - 1)
  }

  // Steps. Each function is one handler body; the outcome of a call into the client library
  // or the clock arrives as a parameter.

  function ClearReconnectTimer(b: Bot): Bot {
    match b.tracked
    case None => b
    case Some(id) => b.(tracked := None, runtime := b.runtime.Cancel(id))
  }

  /** `created` is false when creating the client throws. */
  function Connect(b: Bot, options: ConnectOptions, created: bool): Bot {
    var b1 := b.(options := Some(options));
    var b2 := if b1.info.Some?
              then b1.At(Stopped).(runtime := b1.runtime.Detach(b1.info.value.socket))
              else b1;
    var b3 := ClearReconnectTimer(b2);
    if created then Install(b3, options) else b3
  }

  /** Registers the new client under a fresh identity, keeping the death count. */
  function Install(b: Bot, options: ConnectOptions): Bot {
    var socket := b.runtime.nextId;
    var b1 := b.(info := Some(Info(Connecting, socket, b.DeathCount())), runtime := b.runtime.FreshId());
    var b2 := if options.reconnectEnabled
              then b1.(strategy := Some(Strategy(b1.runtime.nextId, 0, options.reconnectMaxRetries)),
                       runtime := b1.runtime.FreshId())
              else b1;
    b2.(runtime := b2.runtime.Attach(socket, Listener(options, true)))
  }

  function Disconnect(b: Bot): Bot {
    var b1 := ClearReconnectTimer(b).(strategy := None, deaths := [], suspended := false,
                                      options := None, wasDebugging := false);
    if b1.info.Some?
    then b1.At(Stopped).(runtime := b1.runtime.Detach(b1.info.value.socket))
    else b1
  }

  /** `writable`: the socket accepts writes; `respawned`: the in-game respawn did not throw. */
  function ForceRespawn(b: Bot, writable: bool, respawned: bool, created: bool): Bot {
    var b1 := b.(suspended := false, deaths := []);
    if b1.info.None? then b1
    else if writable && respawned then b1.At(Spawned).Report(FORCE_RESPAWN)
    else
      var b2 := if writable then b1.At(Spawned).Report(CLEANUP_ERROR) else b1;
      match b2.options
      case None => b2
      case Some(options) => Connect(b2.Report(FORCE_RESPAWN), options, created)
  }

  function OnSpawn(b: Bot, socket: nat): Bot {
    var b0 := if socket in b.runtime.listeners
              then b.(runtime := b.runtime.Attach(socket, b.runtime.listeners[socket].(awaitingSpawn := false)))
              else b;
    if b0.info.None? then b0
    else
      var b1 := if b0.wasDebugging
                then b0.At(Debugging).(wasDebugging := false).Report(DEBUG_RESTORED)
                else b0.At(Spawned);
      var b2 := b1.(strategy := if b1.strategy.Some? then Some(b1.strategy.value.Reset()) else None);
      b2.Report(SPAWNED)
  }

  function RememberDebugging(b: Bot): Bot {
    if b.Is(Debugging) then b.(wasDebugging := true) else b
  }

  function HandleDeathRecovery(b: Bot, options: ConnectOptions, now: int): Bot {
    var recent := Since(b.deaths + [now], now - RAPID_DEATH_WINDOW_MS + 1);
    var b1 := b.(deaths := recent);
    if |recent| >= RAPID_DEATH_MAX then
      var b2 := ClearReconnectTimer(b1.(suspended := true).Report(RAPID_DEATH));
      b2.(tracked := Some(b2.runtime.nextId), runtime := b2.runtime.Schedule(DeathRecovery(options)))
    else if options.autoRespawn && !b1.suspended then
      b1.(runtime := b1.runtime.Schedule(AutoRespawn(options)))
    else b1
  }

  /** The body shared by the health, death and delayed end handlers once they see a death. */
  function Die(b: Bot, options: ConnectOptions, now: int): Bot
    requires b.info.Some?
  {
    HandleDeathRecovery(MarkDead(b), options, now)
  }

  function MarkDead(b: Bot): Bot
    requires b.info.Some?
  {
    var b1 := RememberDebugging(b);
    b1.(info := Some(b1.info.value.(state := Dead, deathCount := b1.info.value.deathCount + 1))).Report(DIED)
  }

  function OnHealth(b: Bot, options: ConnectOptions, healthIsZero: bool, now: int): Bot {
    if b.info.Some? && healthIsZero && !b.Is(Dead) && !b.Is(Stopped) then Die(b, options, now) else b
  }

  function OnDeath(b: Bot, options: ConnectOptions, now: int): Bot {
    if b.info.Some? && !b.Is(Dead) then Die(b, options, now) else b
  }

  /** Leave the current phase for DISCONNECTED and schedule a reconnect. */
  function Lose(b: Bot, notices: seq<Notice>, options: ConnectOptions, jitter: int): Bot
    requires b.info.Some?
  {
    var b1 := RememberDebugging(b).At(Disconnected);
    AttemptReconnect(b1.(runtime := b1.runtime.(log := b1.runtime.log + notices)), options, jitter)
  }

  function OnKicked(b: Bot, options: ConnectOptions, jitter: int): Bot {
    if b.info.None? then b
    else if b.Is(Dead) || b.Is(Stopped) then b.Report(KICKED)
    else Lose(b, [KICKED], options, jitter)
  }

  function OnEnd(b: Bot, options: ConnectOptions, lastY: Option<real>): Bot {
    b.(runtime := b.runtime.Schedule(EndDelay(lastY, options)))
  }

  function OnError(b: Bot, options: ConnectOptions, jitter: int): Bot {
    if b.info.None? then b
    else if b.Is(Stopped) || b.Is(Disconnected) || b.Is(Dead) then b.Report(ERROR)
    else Lose(b.Report(ERROR), [], options, jitter)
  }

  /** A server-side respawn of `socket`; a suspended bot is cut off instead of revived. */
  function OnRespawn(b: Bot, socket: nat): Bot {
    if b.Is(Dead) then
      if b.suspended then
        var b1 := b.Report(RAPID_DEATH_DISCONNECT);
        b1.(runtime := b1.runtime.Detach(socket))
      else if b.wasDebugging
      then b.At(Debugging).(wasDebugging := false).Report(DEBUG_RESTORED).Report(RESPAWNED)
      else b.At(Spawned).Report(RESPAWNED)
    else b.Report(RESPAWNED)
  }

  function AttemptReconnect(b: Bot, options: ConnectOptions, jitter: int): Bot {
    match b.strategy
    case None => b
    case Some(s) =>
      if !s.ShouldReconnect() then
        var b1 := ClearReconnectTimer(b).Report(RECONNECT_EXHAUSTED);
        b1.(tracked := Some(b1.runtime.nextId), runtime := b1.runtime.Schedule(ExhaustionRecovery(s.id, options)))
      else
        var s1 := s.RecordFailure();
        b.(strategy := Some(s1), tracked := Some(b.runtime.nextId),
           runtime := b.runtime.Schedule(Reconnect(s1.NextDelayMs() + jitter, options)))
  }

  // Timer callbacks. The event loop forgets a callback before running it.

  function ReconnectDue(b: Bot, options: ConnectOptions, created: bool): Bot {
    Connect(b.(tracked := None), options, created)
  }

  function ExhaustionDue(b: Bot, strategyId: nat, options: ConnectOptions, created: bool): Bot {
    var b1 := b.(tracked := None);
    var b2 := if b1.strategy.Some? && b1.strategy.value.id == strategyId
              then b1.(strategy := Some(b1.strategy.value.Reset())) else b1;
    if b2.info.Some? && !b2.Is(Stopped) then Connect(b2.Report(RECONNECT_RECOVERY), options, created) else b2
  }

  function DeathRecoveryDue(b: Bot, options: ConnectOptions, created: bool): Bot {
    var b1 := b.(tracked := None, suspended := false, deaths := []);
    if b1.info.Some? && !b1.Is(Stopped) then Connect(b1.Report(RAPID_DEATH_RECOVERY), options, created) else b1
  }

  function AutoRespawnDue(b: Bot, options: ConnectOptions, writable: bool, respawned: bool, jitter: int): Bot {
    if b.suspended || !b.Is(Dead) then b
    else if writable && respawned then b.Report(AUTO_RESPAWN)
    else
      var b1 := if writable then b.Report(CLEANUP_ERROR) else b;
      AttemptReconnect(b1.Report(AUTO_RESPAWN), options, jitter)
  }

  function EndDue(b: Bot, lastY: Option<real>, options: ConnectOptions, now: int, jitter: int): Bot {
    if b.info.None? || b.Is(Stopped) || b.Is(Disconnected) || b.Is(Dead) then b
    else
      var hasRecentDeaths := |b.deaths| > 0;
      var isVoidDeath := (lastY.Some? && lastY.value < -64.0) || (lastY.None? && hasRecentDeaths);
      if isVoidDeath || hasRecentDeaths then Die(b, options, now)
      else Lose(b, [DISCONNECTED], options, jitter)
  }

  // The step relation.

  /** What can happen to a bot; every outcome the environment decides is part of the event. */
  datatype Event =
    | ConnectCall(options: ConnectOptions, created: bool)
    | DisconnectCall
    | ForceRespawnCall(writable: bool, respawned: bool, created: bool)
    | DebugEnter
    | DebugExit
    | Spawn(socket: nat)
    | Health(socket: nat, options: ConnectOptions, healthIsZero: bool)
    | Death(socket: nat, options: ConnectOptions)
    | Kicked(socket: nat, options: ConnectOptions)
    | Failed(socket: nat, options: ConnectOptions)
    | Ended(socket: nat, options: ConnectOptions, lastY: Option<real>)
    | Respawn(socket: nat)
    | Due(id: nat, callback: Callback, writable: bool, respawned: bool, created: bool)

  /** An event with the clock reading and the random jitter its handler would draw. */
  datatype Tick = Tick(now: int, jitter: int, event: Event)

  function RunCallback(b: Bot, t: Tick): Bot
    requires t.event.Due?
  {
    match t.event.callback
    case Reconnect(_, options) => ReconnectDue(b, options, t.event.created)
    case ExhaustionRecovery(id, options) => ExhaustionDue(b, id, options, t.event.created)
    case DeathRecovery(options) => DeathRecoveryDue(b, options, t.event.created)
    case AutoRespawn(options) => AutoRespawnDue(b, options, t.event.writable, t.event.respawned, t.jitter)
    case EndDelay(lastY, options) => EndDue(b, lastY, options, t.now, t.jitter)
  }

  function Step(b: Bot, t: Tick): Bot {
    match t.event
    case ConnectCall(options, created) => Connect(b, options, created)
    case DisconnectCall => Disconnect(b)
    case ForceRespawnCall(writable, respawned, created) => ForceRespawn(b, writable, respawned, created)
    case DebugEnter => if b.info.Some? then b.At(Debugging) else b
    case DebugExit => if b.info.Some? then b.At(Spawned) else b
    case Spawn(socket) => OnSpawn(b, socket)
    case Health(_, options, healthIsZero) => OnHealth(b, options, healthIsZero, t.now)
    case Death(_, options) => OnDeath(b, options, t.now)
    case Kicked(_, options) => OnKicked(b, options, t.jitter)
    case Failed(_, options) => OnError(b, options, t.jitter)
    case Ended(_, options, lastY) => OnEnd(b, options, lastY)
    case Respawn(socket) => OnRespawn(b, socket)
    case Due(id, _, _, _, _) => RunCallback(b.(runtime := b.runtime.Cancel(id)), t)
  }

  function Run(b: Bot, ticks: seq<Tick>): Bot {
    if ticks == [] then b else Step(Run(b, ticks[..|ticks| - 1]), ticks[|ticks| - 1])
  }
}
