// The browser's transport: one current socket, its reconnects and its
// heartbeat, as a machine over user commands and the events of every socket
// that was ever attached.

module Transport {
  import opened Wrappers
  import opened TransportState
  import Heartbeat

  // readyState
  const CONNECTING := 0
  const OPEN := 1
  const CLOSING := 2
  const CLOSED := 3

  // `wasOpen`, `errored` and `heard` are logs: its open event was handled; an
  // error event was handled since; when its open event or its last pong was.
  datatype Socket = Socket(ready: nat, generation: nat, listening: bool, wasOpen: bool, errored: bool, heard: nat)

  // `sockets` holds every socket ever attached. `started`, `parked`, `delays`,
  // `now`, `heard` and `unanswered` are logs: some command was given; none was,
  // or the last one was dispose; the reconnect delays used since attempts were
  // last reset; the clock; when the monitor was last started or given a pong;
  // the pings since then. `reports`, a log too, are all failures announced.
  datatype Engine = Engine(
    state: State,
    sockets: seq<Socket>,
    current: Option<nat>,
    generation: nat,
    intent: Intent,
    errorGeneration: Option<nat>,
    monitor: Heartbeat.Monitor,
    reconnect: Option<nat>,
    started: bool,
    parked: bool,
    delays: seq<nat>,
    now: nat,
    heard: nat,
    unanswered: nat,
    reports: seq<Failure>)

  const FRESH := Engine(INITIAL_STATE, [], None, 0, Normal, None, Heartbeat.STOPPED, None, false, true, [], 0, 0, 0, [])

  // What createSocket and the runtime context will answer.
  datatype Env = Env(hasSession: bool, created: bool)

  function Dispatch(e: Engine, n: Notice): (e': Engine) {
    e.(state := Reduce(e.state, n),
       delays := if n.SetConnected? || n.ClearAttempts? then [] else e.delays,
       reports := if n.SocketFailure? then e.reports + [n.failure] else e.reports)
  }

  // ---------------------------------------------------------- socket session

  predicate HasCurrent(e: Engine) {
    e.current.Some? && e.current.value < |e.sockets|
  }

  function Current(e: Engine): (s: Socket)
    requires HasCurrent(e)
  {
    e.sockets[e.current.value]
  }

  predicate IsActive(e: Engine) {
    HasCurrent(e) && Current(e).ready <= OPEN
  }

  predicate IsCurrent(e: Engine, socket: nat, generation: nat) {
    e.current == Some(socket) && e.generation == generation
  }

  function Update(e: Engine, socket: nat, s: Socket): (e': Engine) {
    if socket < |e.sockets| then e.(sockets := e.sockets[socket := s]) else e
  }

  function Clear(e: Engine): (e': Engine) {
    var e1 := if HasCurrent(e) then Update(e, e.current.value, Current(e).(listening := false)) else e;
    e1.(current := None, intent := Normal)
  }

  function Attach(e: Engine): (e': Engine) {
    var e1 := Clear(e);
    e1.(generation := e1.generation + 1,
        sockets := e1.sockets + [Socket(CONNECTING, e1.generation + 1, true, false, false, 0)],
        current := Some(|e1.sockets|))
  }

  function CloseActive(e: Engine, intent: Intent): (e': Engine) {
    if IsActive(e) then Update(e, e.current.value, Current(e).(ready := CLOSING)).(intent := intent) else e
  }

  // ------------------------------------------------------------ the commands

  function Connect(e: Engine, env: Env): (e': Engine) {
    if IsActive(e) then e
    else
      var e1 := Dispatch(e, SetConnecting(env.hasSession));
      if env.created then Attach(e1)
      else Dispatch(Dispatch(e1, SocketFailure(BootstrapFailed)), SocketErrored)
  }

  // How every other command begins.
  function BeginCommand(e: Engine, clearAttempts: bool): (e': Engine) {
    var e1 := e.(reconnect := None);
    var e2 := if clearAttempts then Dispatch(e1, ClearAttempts) else e1;
    e2.(monitor := Heartbeat.Stopped(e2.monitor))
  }

  // reconnectNow and scheduleFreshConnection
  function CloseOrConnect(e: Engine, intent: Intent, env: Env): (e': Engine) {
    var e1 := BeginCommand(e, true);
    if IsActive(e1) then CloseActive(e1, intent) else Connect(e1, env)
  }

  // reconnectWithEndpointChange
  function SwapEndpoint(e: Engine, env: Env): (e': Engine) {
    var e1 := BeginCommand(e, true);
    var e2 := Clear(e1);
    if IsActive(e1) then
      var previous := e1.current.value;
      Connect(Update(e2, previous, e2.sockets[previous].(ready := CLOSING)), env)
    else Connect(e2, env)
  }

  function DisposeTransport(e: Engine): (e': Engine) {
    var e1 := BeginCommand(e, false);
    if IsActive(e1) then CloseActive(e1, Dispose) else Dispatch(Clear(e1), SocketDown)
  }

  // sendPayload; `fails`: send throws
  function Send(e: Engine, fails: bool): (e': Engine) {
    if HasCurrent(e) && Current(e).ready == OPEN && fails
    then Dispatch(Dispatch(e, SocketFailure(SendFailed)), SocketErrored)
    else e
  }

  // ------------------------------------------------------ events and timers

  function OnOpen(e: Engine, socket: nat, generation: nat): (e': Engine) {
    if !IsCurrent(e, socket, generation) || !HasCurrent(e) then e
    else
      var e1 := Update(e, socket, Current(e).(wasOpen := true, errored := false, heard := e.now));
      var e2 := e1.(errorGeneration := None, monitor := Heartbeat.Started(e.monitor, e.now),
                    heard := e.now, unanswered := 0);
      Dispatch(e2, SetConnected)
  }

  function OnError(e: Engine, socket: nat, generation: nat): (e': Engine) {
    if !IsCurrent(e, socket, generation) || !HasCurrent(e) then e
    else
      var e1 := Update(e, socket, Current(e).(errored := true)).(errorGeneration := Some(generation));
      Dispatch(Dispatch(e1, SocketFailure(SocketError)), SocketErrored)
  }

  function ExecutePlan(e: Engine, plan: Plan, code: int, report: bool, env: Env): (e': Engine) {
    match plan
    case Disposed => Dispatch(e, SocketDown)
    case ReconnectImmediate => Connect(Dispatch(e, SetConnecting(false)), env)
    case _ =>
      var e1 := if report then Dispatch(e, SocketFailure(SocketClosed(code))) else e;
      match plan
      case ReconnectExhausted(attempt) => Dispatch(Dispatch(e1, SocketFailure(Exhausted(attempt))), SocketErrored)
      case Reconnect(attempt, delayMs) =>
        Dispatch(e1, ScheduleReconnect(attempt)).(reconnect := Some(delayMs), delays := e1.delays + [delayMs])
      case _ => Dispatch(e1, SocketErrored)
  }

  // The runtime sets readyState to CLOSED before it delivers a close event.
  function OnClose(e: Engine, socket: nat, generation: nat, code: int, env: Env): (e': Engine) {
    var e0 := if socket < |e.sockets| then Update(e, socket, e.sockets[socket].(ready := CLOSED)) else e;
    if !IsCurrent(e0, socket, generation) || !HasCurrent(e0) then e0
    else
      var e1 := Clear(e0).(monitor := Heartbeat.Stopped(e.monitor), errorGeneration := None);
      ExecutePlan(e1, ResolvePlan(e.intent, code, e.state.attempt), code, e.errorGeneration != Some(generation), env)
  }

  // markPong, which only the message handler of the current socket calls
  function MarkPong(e: Engine): (e': Engine) {
    var e0 := if HasCurrent(e) then Update(e, e.current.value, Current(e).(heard := e.now)) else e;
    var e1 := e0.(monitor := Heartbeat.Ponged(e.monitor), heard := e.now, unanswered := 0);
    if e.monitor.sentAt.Some? then Dispatch(e1, Latency(e.now - e.monitor.sentAt.value)) else e1
  }

  // `pong`: the message is one
  function OnMessage(e: Engine, socket: nat, generation: nat, pong: bool): (e': Engine) {
    if !IsCurrent(e, socket, generation) || !HasCurrent(e) || !pong then e else MarkPong(e)
  }

  function PingTimer(e: Engine, fails: bool): (e': Engine) {
    var e1 := e.(monitor := Heartbeat.Ticked(e.monitor, e.now));
    if e.monitor.pong.Idle? then Send(e1.(unanswered := e.unanswered + 1), fails) else e1
  }

  function PongTimeout(e: Engine): (e': Engine) {
    CloseActive(e.(monitor := Heartbeat.TimedOut(e.monitor)), Normal)
  }

  function ReconnectTimer(e: Engine, env: Env): (e': Engine) {
    Connect(e.(reconnect := None), env)
  }

  // ------------------------------------------------------------- the machine

  datatype Event =
    | CallConnect(env: Env)
    | CallReconnectNow(env: Env)
    | CallFresh(env: Env)
    | CallSwap(env: Env)
    | CallDispose
    | CallSend(fails: bool)
    | SocketOpens(socket: nat, generation: nat)
    | SocketErrs(socket: nat, generation: nat)
    | SocketCloses(socket: nat, generation: nat, code: int, env: Env)
    | SocketMoves(socket: nat, ready: nat)
    | SocketSpeaks(socket: nat, generation: nat, pong: bool)
    | PingFires(fails: bool)
    | PongTimeoutFires
    | ReconnectFires(env: Env)
    | Wait(ms: nat)

  predicate IsCommand(ev: Event) {
    ev.CallConnect? || ev.CallReconnectNow? || ev.CallFresh? || ev.CallSwap? || ev.CallDispose?
  }

  // Any event of any socket may come at any time, with any generation; armed
  // timers may run, and readyState only advances.
  predicate Enabled(e: Engine, ev: Event) {
    match ev
    case SocketMoves(socket, ready) => socket < |e.sockets| && e.sockets[socket].ready <= ready <= CLOSED
    case SocketOpens(socket, _) => socket < |e.sockets|
    case SocketErrs(socket, _) => socket < |e.sockets|
    case SocketCloses(socket, _, _, _) => socket < |e.sockets|
    case SocketSpeaks(socket, _, _) => socket < |e.sockets|
    case PingFires(_) => Heartbeat.Running(e.monitor)
    case PongTimeoutFires => e.monitor.pong.Waiting?
    case ReconnectFires(_) => e.reconnect.Some?
    case _ => true
  }

  function Command(e: Engine, ev: Event): (e': Engine) {
    match ev
    case CallConnect(env) => Connect(e, env)
    case CallReconnectNow(env) => CloseOrConnect(e, Manual, env)
    case CallFresh(env) => CloseOrConnect(e, Fresh, env)
    case CallSwap(env) => SwapEndpoint(e, env)
    case CallDispose => DisposeTransport(e)
    case _ => e
  }

  function Apply(e: Engine, ev: Event): (e': Engine) {
    if IsCommand(ev) then Command(e, ev).(started := true, parked := ev.CallDispose?)
    else
      match ev
      case CallSend(fails) => Send(e, fails)
      case SocketOpens(socket, generation) => OnOpen(e, socket, generation)
      case SocketErrs(socket, generation) => OnError(e, socket, generation)
      case SocketCloses(socket, generation, code, env) => OnClose(e, socket, generation, code, env)
      case SocketMoves(socket, ready) =>
        if socket < |e.sockets| then Update(e, socket, e.sockets[socket].(ready := ready)) else e
      case SocketSpeaks(socket, generation, pong) => OnMessage(e, socket, generation, pong)
      case PingFires(fails) => PingTimer(e, fails)
      case PongTimeoutFires => PongTimeout(e)
      case ReconnectFires(env) => ReconnectTimer(e, env)
      case Wait(ms) => e.(now := e.now + ms)
      case _ => e
  }

  function Run(e: Engine, evs: seq<Event>): (e': Engine)
    decreases evs
  {
    if evs == [] then e else Run(Apply(e, evs[0]), evs[1..])
  }

  predicate Possible(e: Engine, evs: seq<Event>)
    decreases evs
  {
    evs == [] || (Enabled(e, evs[0]) && Possible(Apply(e, evs[0]), evs[1..]))
  }
}
