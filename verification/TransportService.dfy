// The transport's objects: sockets, the socket session, the reliability
// coordinator and the lifecycle service. Their methods do to the fields what
// the functions of Transport say; `engine` is the value they stand for.

module TransportService {
  import opened Wrappers
  import TransportPolicy
  import opened TransportState
  import T = Transport
  import Heartbeat

  class TerminalTransport {
    var readyState: nat
    var listeners: bool
    var generation: nat // the one its listeners close over
    ghost var wasOpen: bool
    ghost var errored: bool
    ghost var heard: nat

    ghost predicate Shows(s: T.Socket)
      reads this
    {
      s == T.Socket(readyState, generation, listeners, wasOpen, errored, heard)
    }

    constructor ()
      ensures Shows(T.Socket(T.CONNECTING, 0, false, false, false, 0))
    {
      readyState, listeners, generation, wasOpen, errored, heard := T.CONNECTING, false, 0, false, false, 0;
    }

    method Close()
      modifies this`readyState
      ensures readyState == if old(readyState) < T.CLOSING then T.CLOSING else old(readyState)
    {
      if readyState < T.CLOSING {
        readyState := T.CLOSING;
      }
    }
  }

  class TransportSocketSession {
    var socket: TerminalTransport?
    var detachListeners: bool
    var generation: nat
    var closeIntent: Intent
    // every socket ever attached, oldest first
    ghost var sockets: seq<TerminalTransport>
    ghost var repr: set<TerminalTransport>

    ghost predicate Shows(e: T.Engine)
      reads this, repr
    {
      && generation == e.generation && closeIntent == e.intent
      && |sockets| == |e.sockets|
      && (forall i: nat :: i < |sockets| ==> sockets[i] in repr && sockets[i].Shows(e.sockets[i]))
      && (forall i: nat, j: nat :: i < j < |sockets| ==> sockets[i] != sockets[j])
      && (e.current.Some? ==> e.current.value < |sockets| && socket == sockets[e.current.value])
      && (e.current.None? ==> socket == null)
      && detachListeners == (socket != null)
    }

    constructor ()
      ensures Shows(T.FRESH) && repr == {}
    {
      socket, detachListeners, generation, closeIntent := null, false, 0, Normal;
      sockets, repr := [], {};
    }

    method HasActiveConnection(ghost e: T.Engine) returns (active: bool)
      requires Shows(e)
      ensures active == T.IsActive(e)
    {
      active := socket != null && socket.readyState <= T.OPEN;
    }

    method IsCurrent(ghost e: T.Engine, ghost i: nat, ws: TerminalTransport, g: nat) returns (yes: bool)
      requires Shows(e) && i < |sockets| && sockets[i] == ws
      ensures yes == T.IsCurrent(e, i, g)
    {
      yes := socket == ws && generation == g;
    }

    method Clear(ghost e: T.Engine)
      requires Shows(e)
      modifies this, repr
      ensures Shows(T.Clear(e)) && sockets == old(sockets) && repr == old(repr)
    {
      if detachListeners {
        socket.listeners := false;
        detachListeners := false;
      }
      socket := null;
      closeIntent := Normal;
    }

    method Attach(ghost e: T.Engine, ws: TerminalTransport) returns (g: nat)
      requires Shows(e) && ws !in repr
      requires ws.Shows(T.Socket(T.CONNECTING, 0, false, false, false, 0))
      modifies this, repr, ws
      ensures Shows(T.Attach(e)) && sockets == old(sockets) + [ws] && repr == old(repr) + {ws} && g == generation
    {
      Clear(e);
      generation := generation + 1;
      socket := ws;
      ws.listeners, ws.generation := true, generation;
      detachListeners := true;
      sockets := sockets + [ws];
      repr := repr + {ws};
      g := generation;
    }

    method CloseActive(ghost e: T.Engine, intent: Intent) returns (closed: bool)
      requires Shows(e)
      modifies this, repr
      ensures Shows(T.CloseActive(e, intent)) && sockets == old(sockets) && repr == old(repr)
      ensures closed == T.IsActive(e)
    {
      if socket == null || socket.readyState >= T.CLOSING {
        return false;
      }
      closeIntent := intent;
      socket.Close();
      closed := true;
    }

    method DetachForSocketSwap(ghost e: T.Engine) returns (previous: TerminalTransport?)
      requires Shows(e)
      modifies this, repr
      ensures Shows(T.Clear(e)) && sockets == old(sockets) && repr == old(repr) && previous == old(socket)
      ensures previous != null ==> previous in repr && previous.readyState == old(previous.readyState)
    {
      previous := socket;
      Clear(e);
    }

    method ReleaseIfCurrentWithIntent(ghost e: T.Engine, ghost i: nat, ws: TerminalTransport, g: nat)
      returns (released: bool, intent: Intent)
      requires Shows(e) && i < |sockets| && sockets[i] == ws
      modifies this, repr
      ensures sockets == old(sockets) && repr == old(repr) && released == T.IsCurrent(e, i, g)
      ensures if released then Shows(T.Clear(e)) && intent == e.intent else Shows(e) && intent == Normal
    {
      released := IsCurrent(e, i, ws, g);
      if !released {
        return false, Normal;
      }
      intent := closeIntent;
      Clear(e);
    }
  }

  // Where getState and dispatchEvent lead.
  class StateStore {
    var state: State

    constructor ()
      ensures state == INITIAL_STATE
    {
      state := INITIAL_STATE;
    }

    method Dispatch(n: Notice)
      modifies this
      ensures state == Reduce(old(state), n)
    {
      state := Reduce(state, n);
    }
  }

  class ReliabilityCoordinator {
    const store: StateStore
    const monitor: Heartbeat.HeartbeatMonitor
    var socketErrorGeneration: Option<nat>

    ghost predicate Shows(e: T.Engine)
      reads this, store, monitor
    {
      store.state == e.state && monitor.View() == e.monitor && socketErrorGeneration == e.errorGeneration
    }

    constructor (s: StateStore)
      requires s.state == INITIAL_STATE
      ensures Shows(T.FRESH) && store == s && fresh(monitor)
    {
      store, socketErrorGeneration := s, None;
      monitor := new Heartbeat.HeartbeatMonitor();
    }

    method OnConnected(now: nat)
      modifies this, monitor
      ensures monitor.View() == Heartbeat.Started(old(monitor.View()), now) && socketErrorGeneration.None?
    {
      socketErrorGeneration := None;
      monitor.Start(now);
    }

    method MarkPong(now: nat)
      modifies monitor, store
      ensures monitor.View() == Heartbeat.Ponged(old(monitor.View()))
      ensures store.state ==
              var sentAt := old(monitor.pingSentAt);
              if sentAt.Some? then Reduce(old(store.state), Latency(now - sentAt.value)) else old(store.state)
    {
      var latency := monitor.MarkPong(now);
      if latency.Some? {
        store.Dispatch(Latency(latency.value));
      }
    }

    method ReportFailure(failure: Failure)
      modifies store
      ensures store.state == Reduce(old(store.state), SocketFailure(failure))
    {
      store.Dispatch(SocketFailure(failure));
    }

    // reportSendFailure and reportBootstrapFailure
    method ReportFatal(failure: Failure)
      modifies store
      ensures store.state == Reduce(Reduce(old(store.state), SocketFailure(failure)), SocketErrored)
    {
      ReportFailure(failure);
      store.Dispatch(SocketErrored);
    }

    method HandleSocketError(generation: nat)
      modifies this, store
      ensures socketErrorGeneration == Some(generation)
      ensures store.state == Reduce(Reduce(old(store.state), SocketFailure(SocketError)), SocketErrored)
    {
      socketErrorGeneration := Some(generation);
      ReportFatal(SocketError);
    }

    method HandleSocketClose(generation: nat) returns (report: bool)
      modifies this, monitor
      ensures monitor.View() == Heartbeat.Stopped(old(monitor.View())) && socketErrorGeneration.None?
      ensures report == (old(socketErrorGeneration) != Some(generation))
    {
      monitor.Stop();
      report := socketErrorGeneration != Some(generation);
      socketErrorGeneration := None;
    }
  }

  class TransportLifecycleService {
    const store: StateStore
    const session: TransportSocketSession
    const reliability: ReliabilityCoordinator
    var reconnectTimer: Option<nat>
    ghost var engine: T.Engine

    ghost predicate Valid()
      reads this, store, session, session.repr, reliability, reliability.monitor
    {
      && reliability.store == store
      && session.Shows(engine) && reliability.Shows(engine) && reconnectTimer == engine.reconnect
    }

    constructor ()
      ensures Valid() && engine == T.FRESH
    {
      var states := new StateStore();
      store := states;
      session := new TransportSocketSession();
      reliability := new ReliabilityCoordinator(states);
      reconnectTimer := None;
      engine := T.FRESH;
    }

    // The engine after a notice: the state changed, the objects of the session did not.
    method Dispatch(n: Notice)
      requires Valid()
      modifies this`engine, store
      ensures Valid() && engine == T.Dispatch(old(engine), n)
    {
      store.Dispatch(n);
      engine := T.Dispatch(engine, n);
    }

    method SendPayload(fails: bool) returns (sent: bool)
      requires Valid()
      modifies this`engine, store
      ensures Valid() && engine == T.Send(old(engine), fails)
      ensures sent == (T.IsActive(old(engine)) && T.Current(old(engine)).ready == T.OPEN && !fails)
    {
      var socket := session.socket;
      if socket == null || socket.readyState != T.OPEN {
        return false;
      }
      if fails {
        reliability.ReportFatal(SendFailed);
        engine := T.Send(engine, fails);
        return false;
      }
      sent := true;
    }

    method Connect(env: T.Env)
      requires Valid()
      modifies this`engine, store, session, session.repr
      ensures Valid() && engine == T.Connect(old(engine), env) && fresh(session.repr - old(session.repr))
      ensures old(session.sockets) <= session.sockets
    {
      var active := session.HasActiveConnection(engine);
      if active {
        return;
      }
      Dispatch(SetConnecting(env.hasSession));
      if !env.created {
        reliability.ReportFatal(BootstrapFailed);
        engine := T.Dispatch(T.Dispatch(engine, SocketFailure(BootstrapFailed)), SocketErrored);
        return;
      }
      var ws := new TerminalTransport();
      var generation := session.Attach(engine, ws);
      engine := T.Attach(engine);
    }

    // ----------------------------------------------------------- the commands

    // executeLifecycleCommand, up to tryClose.
    method BeginCommand(clearAttempts: bool)
      requires Valid()
      modifies this, store, reliability.monitor
      ensures Valid() && engine == T.BeginCommand(old(engine), clearAttempts)
    {
      reconnectTimer := None;
      engine := engine.(reconnect := None);
      if clearAttempts {
        Dispatch(ClearAttempts);
      }
      reliability.monitor.Stop();
      engine := engine.(monitor := Heartbeat.Stopped(engine.monitor));
    }

    method CloseOrConnect(intent: Intent, env: T.Env)
      requires Valid()
      modifies this, store, reliability.monitor, session, session.repr
      ensures Valid() && engine == T.CloseOrConnect(old(engine), intent, env) && fresh(session.repr - old(session.repr))
    {
      hide T.Connect, T.BeginCommand;
      BeginCommand(true);
      var closed := session.CloseActive(engine, intent);
      engine := T.CloseActive(engine, intent);
      if !closed {
        Connect(env);
      }
    }

    method ReconnectNow(env: T.Env)
      requires Valid()
      modifies this, store, reliability.monitor, session, session.repr
      ensures Valid() && engine == T.CloseOrConnect(old(engine), Manual, env) && fresh(session.repr - old(session.repr))
    {
      CloseOrConnect(Manual, env);
    }

    method ScheduleFreshConnection(env: T.Env)
      requires Valid()
      modifies this, store, reliability.monitor, session, session.repr
      ensures Valid() && engine == T.CloseOrConnect(old(engine), Fresh, env) && fresh(session.repr - old(session.repr))
    {
      CloseOrConnect(Fresh, env);
    }

    method ReconnectWithEndpointChange(env: T.Env)
      requires Valid()
      modifies this, store, reliability.monitor, session, session.repr
      ensures Valid() && engine == T.SwapEndpoint(old(engine), env) && fresh(session.repr - old(session.repr))
    {
      hide T.Connect, T.BeginCommand;
      BeginCommand(true);
      ghost var e := engine;
      var previous := session.DetachForSocketSwap(engine);
      engine := T.Clear(engine);
      if previous != null && previous.readyState < T.CLOSING {
        previous.Close();
        ghost var i := e.current.value;
        engine := T.Update(engine, i, engine.sockets[i].(ready := T.CLOSING));
      }
      Connect(env);
    }

    method DisposeTransport()
      requires Valid()
      modifies this, store, reliability.monitor, session, session.repr
      ensures Valid() && engine == T.DisposeTransport(old(engine)) && session.repr == old(session.repr)
    {
      hide T.BeginCommand;
      BeginCommand(false);
      var closed := session.CloseActive(engine, Dispose);
      engine := T.CloseActive(engine, Dispose);
      if !closed {
        session.Clear(engine);
        engine := T.Clear(engine);
        Dispatch(SocketDown);
      }
    }

    // ------------------------------------------------------- events and timers

    method OnOpen(ghost i: nat, ws: TerminalTransport, generation: nat, now: nat)
      requires Valid() && i < |session.sockets| && session.sockets[i] == ws && now == engine.now
      modifies this`engine, store, reliability, reliability.monitor, session.repr
      ensures Valid() && engine == T.OnOpen(old(engine), i, generation)
    {
      var current := session.IsCurrent(engine, i, ws, generation);
      if !current {
        return;
      }
      ws.wasOpen, ws.errored, ws.heard := true, false, now;
      reliability.OnConnected(now);
      store.Dispatch(SetConnected);
      engine := T.OnOpen(engine, i, generation);
    }

    method OnSocketError(ghost i: nat, ws: TerminalTransport, generation: nat)
      requires Valid() && i < |session.sockets| && session.sockets[i] == ws
      modifies this`engine, store, reliability, session.repr
      ensures Valid() && engine == T.OnError(old(engine), i, generation)
    {
      var current := session.IsCurrent(engine, i, ws, generation);
      if !current {
        return;
      }
      ws.errored := true;
      reliability.HandleSocketError(generation);
      engine := T.OnError(engine, i, generation);
    }

    method ExecuteClosePlan(intent: Intent, code: int, report: bool, env: T.Env)
      requires Valid()
      modifies this, store, session, session.repr
      ensures Valid() && fresh(session.repr - old(session.repr))
      ensures var plan := ResolvePlan(intent, code, old(engine.state.attempt));
              engine == T.ExecutePlan(old(engine), plan, code, report, env)
    {
      hide T.Connect, T.Dispatch, TransportPolicy.ReconnectDelayMs, TransportPolicy.IsRecoverable;
      var plan := ResolvePlan(intent, code, store.state.attempt);
      if plan.Disposed? {
        Dispatch(SocketDown);
        return;
      }
      if plan.ReconnectImmediate? {
        Dispatch(SetConnecting(false));
        Connect(env);
        return;
      }
      if report {
        Dispatch(SocketFailure(SocketClosed(code)));
      }
      if plan.NonRecoverable? {
        Dispatch(SocketErrored);
        return;
      }
      if plan.ReconnectExhausted? {
        Dispatch(SocketFailure(Exhausted(plan.attempt)));
        Dispatch(SocketErrored);
        return;
      }
      ghost var delays := engine.delays;
      Dispatch(ScheduleReconnect(plan.attempt));
      reconnectTimer := Some(plan.delayMs);
      engine := engine.(reconnect := Some(plan.delayMs), delays := delays + [plan.delayMs]);
    }

    // What the runtime does to a socket on its own.
    method RuntimeMoves(ghost i: nat, ws: TerminalTransport, ready: nat)
      requires Valid() && i < |session.sockets| && session.sockets[i] == ws
      modifies this`engine, session.repr
      ensures i < |old(engine).sockets|
      ensures Valid() && engine == T.Update(old(engine), i, old(engine).sockets[i].(ready := ready))
    {
      ws.readyState := ready;
      engine := T.Update(engine, i, engine.sockets[i].(ready := ready));
    }

    // The runtime sets readyState before it calls the close listeners.
    method OnSocketClose(ghost i: nat, ws: TerminalTransport, generation: nat, code: int, env: T.Env)
      requires Valid() && i < |session.sockets| && session.sockets[i] == ws
      modifies this, store, reliability, reliability.monitor, session, session.repr
      ensures Valid() && engine == T.OnClose(old(engine), i, generation, code, env)
      ensures fresh(session.repr - old(session.repr))
    {
      hide T.ExecutePlan, ResolvePlan;
      RuntimeMoves(i, ws, T.CLOSED);
      var released, intent := session.ReleaseIfCurrentWithIntent(engine, i, ws, generation);
      if !released {
        return;
      }
      engine := T.Clear(engine);
      var report := reliability.HandleSocketClose(generation);
      engine := engine.(monitor := Heartbeat.Stopped(engine.monitor), errorGeneration := None);
      ExecuteClosePlan(intent, code, report, env);
    }

    method MarkPong(now: nat)
      requires Valid() && now == engine.now
      modifies this`engine, store, reliability.monitor, session.repr
      ensures Valid() && engine == T.MarkPong(old(engine))
    {
      var socket := session.socket;
      if socket != null {
        socket.heard := now;
      }
      reliability.MarkPong(now);
      engine := T.MarkPong(engine);
    }

    // The message listener; what the application does with a message comes
    // back as markPong when the message is a pong.
    method OnMessage(ghost i: nat, ws: TerminalTransport, generation: nat, pong: bool, now: nat)
      requires Valid() && i < |session.sockets| && session.sockets[i] == ws && now == engine.now
      modifies this`engine, store, reliability.monitor, session.repr
      ensures Valid() && engine == T.OnMessage(old(engine), i, generation, pong)
    {
      var current := session.IsCurrent(engine, i, ws, generation);
      if !current {
        return;
      }
      if pong {
        MarkPong(now);
      }
    }

    method OnPingTimer(now: nat, fails: bool)
      requires Valid() && now == engine.now
      modifies this`engine, store, reliability.monitor
      ensures Valid() && engine == T.PingTimer(old(engine), fails)
    {
      hide T.Send;
      var ping := reliability.monitor.OnInterval(now);
      engine := engine.(monitor := Heartbeat.Ticked(engine.monitor, now));
      if ping {
        engine := engine.(unanswered := engine.unanswered + 1);
        var _ := SendPayload(fails);
      }
    }

    method OnPongTimeout()
      requires Valid()
      modifies this`engine, reliability.monitor, session, session.repr
      ensures Valid() && engine == T.PongTimeout(old(engine)) && session.repr == old(session.repr)
    {
      reliability.monitor.OnPongTimeout();
      engine := engine.(monitor := Heartbeat.TimedOut(engine.monitor));
      var _ := session.CloseActive(engine, Normal);
      engine := T.CloseActive(engine, Normal);
    }

    method OnReconnectTimer(env: T.Env)
      requires Valid()
      modifies this, store, session, session.repr
      ensures Valid() && engine == T.ReconnectTimer(old(engine), env) && fresh(session.repr - old(session.repr))
    {
      hide T.Connect;
      reconnectTimer := None;
      engine := engine.(reconnect := None);
      Connect(env);
    }
  }
}
