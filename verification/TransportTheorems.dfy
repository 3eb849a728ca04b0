// What every run of the browser transport keeps.

module TransportTheorems {
  import opened Wrappers
  import opened TransportPolicy
  import opened TransportState
  import opened Transport
  import Heartbeat

  // --------------------------------------------------------- the invariants

  predicate Retired(s: Socket) {
    !s.listening && CLOSING <= s.ready <= CLOSED
  }

  // Only the newest socket can be current; all others are silent and closing.
  predicate OneSocket(e: Engine) {
    && e.generation == |e.sockets|
    && (e.current.Some? ==> e.current.value == |e.sockets| - 1 && Current(e).listening && Current(e).ready <= CLOSED)
    && (forall i: nat :: i < |e.sockets| ==> e.sockets[i].generation == i + 1)
    && (forall i: nat :: i < |e.sockets| && e.current != Some(i) ==> Retired(e.sockets[i]))
  }

  predicate IntentIsSpent(e: Engine) {
    e.intent != Normal ==> HasCurrent(e) && Current(e).ready >= CLOSING
  }

  // What the status announces has a carrier: a connection being made has a
  // socket or a timer behind it, an established one has a socket that opened.
  predicate Truthful(e: Engine) {
    && (e.state.status.Connecting? || e.state.status.Reconnecting? ==> e.current.Some? || e.reconnect.Some?)
    && (e.state.status.Connected? ==> HasCurrent(e) && Current(e).wasOpen)
  }

  predicate Attempts(e: Engine) {
    && |e.delays| == e.state.attempt <= MAX_ATTEMPTS
    && (forall i: nat :: i < |e.delays| ==> e.delays[i] == ReconnectDelayMs(i))
  }

  // A socket that has opened and is not closing is watched by the heartbeat;
  // an opened one has used up no attempt, and is the one heard last.
  predicate Watched(e: Engine) {
    && (Heartbeat.Running(e.monitor) ==> e.current.Some?)
    && (IsActive(e) && Current(e).wasOpen ==> Heartbeat.Running(e.monitor) && !e.monitor.pong.Spent?)
    && (HasCurrent(e) && Current(e).wasOpen ==> e.state.attempt == 0 && Current(e).heard == e.heard)
  }

  // The reconciliation of error and close events.
  predicate ErrorsKnown(e: Engine) {
    && (e.errorGeneration.Some? ==> e.errorGeneration.value <= e.generation)
    && (HasCurrent(e) ==> (Current(e).errored <==> e.errorGeneration == Some(e.generation)))
  }

  // Nothing that could create a socket is pending.
  predicate Quiet(e: Engine) {
    e.reconnect.None? && (e.current.Some? ==> e.intent == Dispose)
  }

  predicate Core(e: Engine) {
    OneSocket(e) && IntentIsSpent(e) && Attempts(e) && Watched(e) && ErrorsKnown(e)
  }

  predicate Inv(e: Engine) {
    && Core(e)
    && (if e.started then Truthful(e) else e.current.None? && e.parked)
    && (e.parked ==> Quiet(e))
  }

  // An event that is no command: what it keeps.
  predicate Keeps(e: Engine, e': Engine) {
    && Core(e')
    && (Truthful(e) ==> Truthful(e'))
    && (Quiet(e) ==> Quiet(e') && |e'.sockets| == |e.sockets|)
    && (e.current.None? && Quiet(e) ==> e'.current.None?)
    && (!e'.started <==> !e.started) && (e'.parked <==> e.parked)
  }

  lemma ConnectKeeps(e: Engine, env: Env)
    requires Core(e)
    ensures var e' := Connect(e, env);
      && Core(e') && (!IsActive(e) || Truthful(e) ==> Truthful(e'))
      && e'.started == e.started && e'.parked == e.parked
  {
    hide ReconnectDelayMs, IsRecoverable;
  }

  lemma CloseOrConnectKeeps(e: Engine, intent: Intent, env: Env)
    requires Core(e) && (e.current.Some? ==> Truthful(e))
    ensures Core(CloseOrConnect(e, intent, env)) && Truthful(CloseOrConnect(e, intent, env))
  {
    hide ReconnectDelayMs, IsRecoverable, Connect;
    var e1 := BeginCommand(e, true);
    if !IsActive(e1) {
      ConnectKeeps(e1, env);
    }
  }

  lemma SwapKeeps(e: Engine, env: Env)
    requires Core(e)
    ensures Core(SwapEndpoint(e, env)) && Truthful(SwapEndpoint(e, env))
  {
    hide ReconnectDelayMs, IsRecoverable, Connect;
    var e1 := BeginCommand(e, true);
    var e2 := Clear(e1);
    if IsActive(e1) {
      var previous := e1.current.value;
      ConnectKeeps(Update(e2, previous, e2.sockets[previous].(ready := CLOSING)), env);
    } else {
      ConnectKeeps(e2, env);
    }
  }

  lemma DisposeKeeps(e: Engine)
    requires Core(e) && (e.current.Some? ==> Truthful(e))
    ensures var e' := DisposeTransport(e); Core(e') && Truthful(e') && Quiet(e')
  {
    hide ReconnectDelayMs, IsRecoverable;
  }

  lemma OpenKeeps(e: Engine, socket: nat, generation: nat)
    requires Core(e)
    ensures Keeps(e, OnOpen(e, socket, generation))
  {
    hide ReconnectDelayMs, IsRecoverable;
  }

  lemma ErrorKeeps(e: Engine, socket: nat, generation: nat)
    requires Core(e)
    ensures Keeps(e, OnError(e, socket, generation))
  {
    hide ReconnectDelayMs, IsRecoverable;
  }

  // The state in which a close plan is executed.
  lemma Released(e: Engine, socket: nat, generation: nat)
    requires Core(e) && socket < |e.sockets|
    ensures var e0 := Update(e, socket, e.sockets[socket].(ready := CLOSED));
      && Keeps(e, e0)
      && (IsCurrent(e, socket, generation) ==>
            var e1 := Clear(e0).(monitor := Heartbeat.Stopped(e.monitor), errorGeneration := None);
            && Core(e1) && e1.current.None? && e1.reconnect == e.reconnect && e1.state == e.state
            && |e1.sockets| == |e.sockets|)
  {
    hide ReconnectDelayMs, IsRecoverable;
  }

  predicate PlanEffect(e: Engine, e': Engine, disposed: bool) {
    && Core(e') && Truthful(e')
    && e'.started == e.started && e'.parked == e.parked
    && (disposed && e.reconnect.None? ==> Quiet(e') && e'.current.None? && |e'.sockets| == |e.sockets|)
  }

  lemma GiveUpKeeps(e: Engine, plan: Plan, code: int, report: bool, env: Env)
    requires Core(e) && e.current.None? && (plan.Disposed? || plan.NonRecoverable? || plan.ReconnectExhausted?)
    ensures PlanEffect(e, ExecutePlan(e, plan, code, report, env), plan.Disposed?)
  {
    hide ReconnectDelayMs, IsRecoverable, Connect;
  }

  lemma RetryKeeps(e: Engine, code: int, report: bool, env: Env)
    requires Core(e) && e.current.None? && e.state.attempt < MAX_ATTEMPTS
    ensures var plan := Reconnect(e.state.attempt + 1, ReconnectDelayMs(e.state.attempt));
            PlanEffect(e, ExecutePlan(e, plan, code, report, env), false)
  {
    hide ReconnectDelayMs, IsRecoverable, Connect;
  }

  lemma ImmediateKeeps(e: Engine, code: int, report: bool, env: Env)
    requires Core(e) && e.current.None?
    ensures PlanEffect(e, ExecutePlan(e, ReconnectImmediate, code, report, env), false)
  {
    hide ReconnectDelayMs, IsRecoverable, Connect;
    ConnectKeeps(Dispatch(e, SetConnecting(false)), env);
  }

  lemma PlanKeeps(e: Engine, intent: Intent, code: int, report: bool, env: Env)
    requires Core(e) && e.current.None?
    ensures var plan := ResolvePlan(intent, code, e.state.attempt);
            PlanEffect(e, ExecutePlan(e, plan, code, report, env), intent == Dispose)
  {
    hide ReconnectDelayMs, IsRecoverable, Core, ExecutePlan;
    var plan := ResolvePlan(intent, code, e.state.attempt);
    match plan
    case Reconnect(_, _) => RetryKeeps(e, code, report, env);
    case ReconnectImmediate => ImmediateKeeps(e, code, report, env);
    case _ => GiveUpKeeps(e, plan, code, report, env);
  }

  lemma CloseKeeps(e: Engine, socket: nat, generation: nat, code: int, env: Env)
    requires Core(e) && socket < |e.sockets|
    ensures Keeps(e, OnClose(e, socket, generation, code, env))
  {
    hide Core, ExecutePlan, ResolvePlan;
    Released(e, socket, generation);
    var e0 := Update(e, socket, e.sockets[socket].(ready := CLOSED));
    if IsCurrent(e, socket, generation) {
      var e1 := Clear(e0).(monitor := Heartbeat.Stopped(e.monitor), errorGeneration := None);
      PlanKeeps(e1, e.intent, code, e.errorGeneration != Some(generation), env);
    }
  }

  lemma SendKeeps(e: Engine, fails: bool)
    requires Core(e)
    ensures Keeps(e, Send(e, fails)) && Send(e, fails).monitor == e.monitor
  {
    hide ReconnectDelayMs, IsRecoverable;
  }

  lemma PingKeeps(e: Engine, fails: bool)
    requires Core(e) && Heartbeat.Running(e.monitor)
    ensures Keeps(e, PingTimer(e, fails))
  {
    hide ReconnectDelayMs, IsRecoverable, Send;
    SendKeeps(e.(monitor := Heartbeat.Ticked(e.monitor, e.now), unanswered := e.unanswered + 1), fails);
  }

  lemma MoveKeeps(e: Engine, socket: nat, ready: nat)
    requires Core(e) && Enabled(e, SocketMoves(socket, ready))
    ensures Keeps(e, Apply(e, SocketMoves(socket, ready)))
  {
    hide ReconnectDelayMs, IsRecoverable;
  }

  lemma PongTimeoutKeeps(e: Engine)
    requires Core(e)
    ensures Keeps(e, PongTimeout(e))
  {
    hide ReconnectDelayMs, IsRecoverable;
  }

  lemma MessageKeeps(e: Engine, socket: nat, generation: nat, pong: bool)
    requires Core(e)
    ensures Keeps(e, OnMessage(e, socket, generation, pong))
  {
    hide ReconnectDelayMs, IsRecoverable;
  }

  lemma WaitKeeps(e: Engine, ms: nat)
    requires Core(e)
    ensures Keeps(e, e.(now := e.now + ms))
  {
    hide ReconnectDelayMs;
  }

  lemma TimerKeeps(e: Engine, env: Env)
    requires Core(e) && Truthful(e)
    ensures var e' := ReconnectTimer(e, env);
            Core(e') && Truthful(e') && e'.started == e.started && e'.parked == e.parked
  {
    hide ReconnectDelayMs, IsRecoverable, Connect;
    ConnectKeeps(e.(reconnect := None), env);
  }

  // The two logs that every command sets mean nothing to the rest.
  lemma Logged(e: Engine, parked: bool)
    ensures var e' := e.(started := true, parked := parked);
      Core(e') == Core(e) && Truthful(e') == Truthful(e) && Quiet(e') == Quiet(e)
  {
    hide ReconnectDelayMs;
  }

  lemma CommandKeeps(e: Engine, ev: Event)
    requires Core(e) && (e.current.Some? ==> Truthful(e)) && IsCommand(ev)
    ensures var e' := Command(e, ev); Core(e') && Truthful(e') && (ev.CallDispose? ==> Quiet(e'))
  {
    hide Core, Connect, CloseOrConnect, SwapEndpoint, DisposeTransport;
    match ev
    case CallConnect(env) => ConnectKeeps(e, env);
    case CallReconnectNow(env) => CloseOrConnectKeeps(e, Manual, env);
    case CallFresh(env) => CloseOrConnectKeeps(e, Fresh, env);
    case CallSwap(env) => SwapKeeps(e, env);
    case CallDispose => DisposeKeeps(e);
    case _ =>
  }

  lemma EventKeeps(e: Engine, ev: Event)
    requires Core(e) && Enabled(e, ev) && !IsCommand(ev) && !ev.ReconnectFires?
    ensures Keeps(e, Apply(e, ev))
  {
    hide Core, OnOpen, OnError, OnClose, OnMessage, PongTimeout, Send, PingTimer, Keeps;
    match ev
    case CallSend(fails) => SendKeeps(e, fails);
    case SocketOpens(s, g) => OpenKeeps(e, s, g);
    case SocketErrs(s, g) => ErrorKeeps(e, s, g);
    case SocketCloses(s, g, code, env) => CloseKeeps(e, s, g, code, env);
    case PingFires(fails) => PingKeeps(e, fails);
    case SocketMoves(s, ready) => MoveKeeps(e, s, ready);
    case PongTimeoutFires => PongTimeoutKeeps(e);
    case SocketSpeaks(s, g, pong) => MessageKeeps(e, s, g, pong);
    case Wait(ms) => WaitKeeps(e, ms);
    case _ =>
  }

  lemma StepKeepsInv(e: Engine, ev: Event)
    requires Inv(e) && Enabled(e, ev)
    ensures Inv(Apply(e, ev))
  {
    hide Core, Truthful, Quiet, Command;
    if IsCommand(ev) {
      CommandKeeps(e, ev);
      Logged(Command(e, ev), ev.CallDispose?);
    } else if ev.ReconnectFires? {
      assert !Quiet(e) by { Armed(e); }
      TimerKeeps(e, ev.env);
    } else {
      EventKeeps(e, ev);
    }
  }

  lemma Armed(e: Engine)
    requires e.reconnect.Some?
    ensures !Quiet(e)
  {
  }

  // --------------------------------------------------------------- all runs

  predicate Reachable(evs: seq<Event>, e: Engine) {
    Possible(FRESH, evs) && Run(FRESH, evs) == e
  }

  lemma {:induction false} RunKeepsInv(e: Engine, evs: seq<Event>)
    requires Inv(e) && Possible(e, evs)
    ensures Inv(Run(e, evs))
    decreases evs
  {
    if evs != [] {
      StepKeepsInv(e, evs[0]);
      RunKeepsInv(Apply(e, evs[0]), evs[1..]);
    }
  }

  lemma ReachableInv(evs: seq<Event>, e: Engine)
    requires Reachable(evs, e)
    ensures Inv(e)
  {
    RunKeepsInv(FRESH, evs);
  }

  // At most one socket is connecting or open; every other one has no listener.
  lemma AtMostOneOpenSocket(evs: seq<Event>, e: Engine, i: nat, j: nat)
    requires Reachable(evs, e) && i < |e.sockets| && j < |e.sockets| && i != j
    ensures e.sockets[i].ready <= OPEN ==> e.current == Some(i) && e.sockets[i].listening
    ensures e.sockets[i].ready <= OPEN || e.sockets[i].listening ==>
      e.sockets[j].ready >= CLOSING && !e.sockets[j].listening
  {
    ReachableInv(evs, e);
  }

  // An event of an older socket or generation changes nothing but that
  // socket's own readyState.
  lemma StaleEventsChangeNothing(evs: seq<Event>, e: Engine, s: nat, g: nat, pong: bool, code: int, env: Env)
    requires Reachable(evs, e) && s < |e.sockets|
    requires e.current != Some(s) || e.sockets[s].generation != g
    ensures OnOpen(e, s, g) == OnError(e, s, g) == OnMessage(e, s, g, pong) == e
    ensures OnClose(e, s, g, code, env) == Update(e, s, e.sockets[s].(ready := CLOSED))
  {
    ReachableInv(evs, e);
  }

  lemma IntentNamesTheClosingSocket(evs: seq<Event>, e: Engine)
    requires Reachable(evs, e) && e.intent != Normal
    ensures HasCurrent(e) && Current(e).ready >= CLOSING && Current(e).generation == e.generation
  {
    ReachableInv(evs, e);
  }

  lemma StatusIsTruthful(evs: seq<Event>, e: Engine)
    requires Reachable(evs, e) && e.started
    ensures e.state.status.Connecting? || e.state.status.Reconnecting? ==> e.current.Some? || e.reconnect.Some?
    ensures e.state.status.Connected? ==> HasCurrent(e) && Current(e).wasOpen
  {
    ReachableInv(evs, e);
  }

  // -------------------------------------------------- one carrier at a time

  predicate Exclusive(e: Engine) {
    e.current.None? || e.reconnect.None?
  }

  // connect is called from outside only at first and after dispose.
  predicate Disciplined(e: Engine, evs: seq<Event>)
    decreases evs
  {
    evs == [] || ((evs[0].CallConnect? ==> e.parked) && Disciplined(Apply(e, evs[0]), evs[1..]))
  }

  lemma ConnectUnarmed(e: Engine, env: Env)
    ensures Connect(e, env).reconnect == e.reconnect
  {
  }

  lemma CommandStaysExclusive(e: Engine, ev: Event)
    requires IsCommand(ev) && (ev.CallConnect? ==> e.reconnect.None?)
    ensures Command(e, ev).reconnect.None?
  {
    hide Connect;
    match ev
    case CallConnect(env) => ConnectUnarmed(e, env);
    case CallReconnectNow(env) => ConnectUnarmed(BeginCommand(e, true), env);
    case CallFresh(env) => ConnectUnarmed(BeginCommand(e, true), env);
    case CallSwap(env) =>
      var e1 := BeginCommand(e, true);
      var e2 := Clear(e1);
      if IsActive(e1) {
        var previous := e1.current.value;
        ConnectUnarmed(Update(e2, previous, e2.sockets[previous].(ready := CLOSING)), env);
      } else {
        ConnectUnarmed(e2, env);
      }
    case _ =>
  }

  lemma CloseStaysExclusive(e: Engine, s: nat, g: nat, code: int, env: Env)
    requires Exclusive(e)
    ensures Exclusive(OnClose(e, s, g, code, env))
  {
    hide ResolvePlan, Connect;
    var e0 := if s < |e.sockets| then Update(e, s, e.sockets[s].(ready := CLOSED)) else e;
    if IsCurrent(e0, s, g) && HasCurrent(e0) {
      var e1 := Clear(e0).(monitor := Heartbeat.Stopped(e.monitor), errorGeneration := None);
      ConnectUnarmed(Dispatch(e1, SetConnecting(false)), env);
    }
  }

  lemma StepStaysExclusive(e: Engine, ev: Event)
    requires Exclusive(e) && Enabled(e, ev) && (ev.CallConnect? ==> e.reconnect.None?)
    ensures Exclusive(Apply(e, ev))
  {
    hide Command, OnClose, Connect;
    if IsCommand(ev) {
      CommandStaysExclusive(e, ev);
    } else if ev.SocketCloses? {
      CloseStaysExclusive(e, ev.socket, ev.generation, ev.code, ev.env);
    } else if ev.ReconnectFires? {
      ConnectUnarmed(e.(reconnect := None), ev.env);
    }
  }

  lemma {:induction false} RunStaysExclusive(e: Engine, evs: seq<Event>)
    requires Inv(e) && Exclusive(e) && Possible(e, evs) && Disciplined(e, evs)
    ensures Exclusive(Run(e, evs))
    decreases evs
  {
    hide Core, Apply, Enabled;
    if evs != [] {
      StepKeepsInv(e, evs[0]);
      StepStaysExclusive(e, evs[0]);
      RunStaysExclusive(Apply(e, evs[0]), evs[1..]);
    }
  }

  // Then a socket and a reconnect timer are never there at the same time, and
  // while the status promises a connection there is exactly one of them.
  lemma OneCarrier(evs: seq<Event>, e: Engine)
    requires Reachable(evs, e) && Disciplined(FRESH, evs)
    ensures e.current.None? || e.reconnect.None?
    ensures e.started && (e.state.status.Connecting? || e.state.status.Reconnecting?) ==>
      (e.current.Some? <==> e.reconnect.None?)
  {
    RunStaysExclusive(FRESH, evs);
    ReachableInv(evs, e);
  }

  // ------------------------------------------------------------- quiescence

  predicate NoCommand(evs: seq<Event>) {
    forall i :: 0 <= i < |evs| ==> !IsCommand(evs[i])
  }

  // Once quiet, no event and no timer makes a socket.
  lemma {:induction false} QuietStaysQuiet(e: Engine, evs: seq<Event>)
    requires Inv(e) && Quiet(e) && Possible(e, evs) && NoCommand(evs)
    ensures Quiet(Run(e, evs)) && |Run(e, evs).sockets| == |e.sockets|
    decreases evs
  {
    hide Core;
    if evs != [] {
      StepKeepsInv(e, evs[0]);
      EventKeeps(e, evs[0]);
      QuietStaysQuiet(Apply(e, evs[0]), evs[1..]);
    }
  }

  lemma DisposeIsFinal(evs: seq<Event>, e: Engine, more: seq<Event>)
    requires Reachable(evs, e) && NoCommand(more) && Possible(Apply(e, CallDispose), more)
    ensures var e' := Run(Apply(e, CallDispose), more); |e'.sockets| == |e.sockets| && e'.reconnect.None?
  {
    hide Core;
    ReachableInv(evs, e);
    StepKeepsInv(e, CallDispose);
    QuietStaysQuiet(Apply(e, CallDispose), more);
    DisposeMakesNone(e);
  }

  lemma DisposeMakesNone(e: Engine)
    ensures |DisposeTransport(e).sockets| == |e.sockets|
  {
  }

  // ----------------------------------------------------- automatic recovery

  // How many sockets can still be made without a command or an open event.
  function Budget(e: Engine): (n: int) {
    MAX_ATTEMPTS - e.state.attempt + (if e.reconnect.Some? then 1 else 0)
    + (if e.current.Some? && (e.intent == Fresh || e.intent == Manual) then 1 else 0)
  }

  predicate Automatic(evs: seq<Event>) {
    forall i :: 0 <= i < |evs| ==> !IsCommand(evs[i]) && !evs[i].SocketOpens?
  }

  predicate Spends(e: Engine, e': Engine) {
    0 <= |e'.sockets| - |e.sockets| <= Budget(e) - Budget(e')
  }

  lemma ImmediateSpends(e: Engine, env: Env)
    requires e.current.None? && e.intent == Normal
    ensures var e' := Connect(Dispatch(e, SetConnecting(false)), env);
      0 <= |e'.sockets| - |e.sockets| <= Budget(e) + 1 - Budget(e')
  {
  }

  lemma PlanSpends(e: Engine, intent: Intent, code: int, report: bool, env: Env)
    requires e.current.None? && e.intent == Normal
    ensures var e' := ExecutePlan(e, ResolvePlan(intent, code, e.state.attempt), code, report, env);
      0 <= |e'.sockets| - |e.sockets| <= Budget(e) + (if intent == Fresh || intent == Manual then 1 else 0) - Budget(e')
  {
    hide ReconnectDelayMs, IsRecoverable, Connect;
    if intent == Fresh || intent == Manual {
      ImmediateSpends(e, env);
    }
  }

  lemma CloseSpends(e: Engine, s: nat, g: nat, code: int, env: Env)
    ensures Spends(e, OnClose(e, s, g, code, env))
  {
    hide ExecutePlan, ResolvePlan;
    var e0 := if s < |e.sockets| then Update(e, s, e.sockets[s].(ready := CLOSED)) else e;
    if IsCurrent(e0, s, g) && HasCurrent(e0) {
      var e1 := Clear(e0).(monitor := Heartbeat.Stopped(e.monitor), errorGeneration := None);
      PlanSpends(e1, e.intent, code, e.errorGeneration != Some(g), env);
    }
  }

  lemma ReconnectSpends(e: Engine, env: Env)
    requires e.reconnect.Some?
    ensures Spends(e, ReconnectTimer(e, env))
  {
  }

  lemma StepSpends(e: Engine, ev: Event)
    requires Enabled(e, ev) && !IsCommand(ev) && !ev.SocketOpens?
    ensures Spends(e, Apply(e, ev))
  {
    hide OnClose, ReconnectTimer;
    match ev
    case SocketCloses(s, g, code, env) => CloseSpends(e, s, g, code, env);
    case ReconnectFires(env) => ReconnectSpends(e, env);
    case _ =>
  }

  lemma {:induction false} RunSpends(e: Engine, evs: seq<Event>)
    requires Possible(e, evs) && Automatic(evs)
    ensures Spends(e, Run(e, evs))
    decreases evs
  {
    hide Budget, Enabled, Apply;
    if evs != [] {
      StepSpends(e, evs[0]);
      RunSpends(Apply(e, evs[0]), evs[1..]);
    }
  }

  // Between one connected event or command and the next, recovery makes at
  // most 8 sockets, and one more that a command or an armed timer has coming.
  lemma RecoveryIsBounded(evs: seq<Event>, e: Engine, more: seq<Event>)
    requires Reachable(evs, e) && Possible(e, more) && Automatic(more)
    ensures |Run(e, more).sockets| <= |e.sockets| + Budget(e)
    ensures e.reconnect.None? && e.intent == Normal ==>
      |Run(e, more).sockets| <= |e.sockets| + MAX_ATTEMPTS - e.state.attempt
  {
    hide Core;
    RunSpends(e, more);
    ReachableInv(evs + more, Run(e, more)) by { RunOfTwo(FRESH, evs, more); }
    AttemptsOf(Run(e, more));
  }

  lemma AttemptsOf(e: Engine)
    requires Core(e)
    ensures e.state.attempt <= MAX_ATTEMPTS
  {
  }

  lemma {:induction false} RunOfTwo(e: Engine, a: seq<Event>, b: seq<Event>)
    requires Possible(e, a) && Possible(Run(e, a), b)
    ensures Possible(e, a + b) && Run(e, a + b) == Run(Run(e, a), b)
    decreases a
  {
    hide Apply, Enabled;
    if a == [] {
      assert a + b == b;
    } else {
      assert (a + b)[0] == a[0] && (a + b)[1..] == a[1..] + b;
      RunOfTwo(Apply(e, a[0]), a[1..], b);
    }
  }

  // The delays used since attempts were last reset.
  lemma DelaysGrowToTheCap(evs: seq<Event>, e: Engine)
    requires Reachable(evs, e)
    ensures |e.delays| == e.state.attempt <= MAX_ATTEMPTS
    ensures forall i, j :: 0 <= i <= j < |e.delays| ==> 300 <= e.delays[i] <= e.delays[j] <= MAX_DELAY_MS
  {
    hide ReconnectDelayMs;
    ReachableInv(evs, e);
    forall i: nat, j: nat | i <= j < |e.delays| ensures 300 <= e.delays[i] <= e.delays[j] <= MAX_DELAY_MS {
      DelaysAreMonotone(i, j);
    }
  }

  // The close of a current socket nobody closed on purpose: exactly when it
  // is followed by a reconnect, and how it ends otherwise.
  lemma UnwantedClose(evs: seq<Event>, e: Engine, g: nat, code: int, env: Env)
    requires Reachable(evs, e) && HasCurrent(e) && e.intent == Normal && g == e.generation
    ensures var e' := OnClose(e, e.current.value, g, code, env);
      && (IsRecoverable(code) && e.state.attempt < MAX_ATTEMPTS ==>
            && e'.reconnect == Some(ReconnectDelayMs(e.state.attempt))
            && e'.state.attempt == e.state.attempt + 1 && e'.state.status.Reconnecting?)
      && (!IsRecoverable(code) || e.state.attempt == MAX_ATTEMPTS ==>
            e'.state.status.Errored? && e'.reconnect == e.reconnect && e'.current.None?)
      && e'.reports == e.reports
                       + (if Current(e).errored then [] else [SocketClosed(code)])
                       + (if IsRecoverable(code) && e.state.attempt == MAX_ATTEMPTS then [Exhausted(8)] else [])
      && e'.state.failure == if |e'.reports| > |e.reports| then Some(e'.reports[|e'.reports| - 1]) else e.state.failure
  {
    hide ReconnectDelayMs, IsRecoverable;
    ReachableInv(evs, e);
  }

  // -------------------------------------------------------------- heartbeat

  // Timers run exactly when they are due.
  predicate OnTime(e: Engine, ev: Event) {
    match ev
    case Wait(ms) => Heartbeat.Punctual(e.monitor, e.now + ms)
    case PingFires(_) => e.monitor.pingDue == Some(e.now)
    case PongTimeoutFires => e.monitor.pong == Heartbeat.Waiting(e.now)
    case _ => true
  }

  predicate Timely(e: Engine, evs: seq<Event>)
    decreases evs
  {
    evs == [] || (Enabled(e, evs[0]) && OnTime(e, evs[0]) && Timely(Apply(e, evs[0]), evs[1..]))
  }

  predicate Timed(e: Engine) {
    && Heartbeat.Punctual(e.monitor, e.now)
    && Heartbeat.Tracks(e.monitor, e.heard, e.now)
    && e.heard <= e.now
  }

  predicate OnePing(e: Engine) {
    e.unanswered <= 1 && (Heartbeat.Running(e.monitor) && e.monitor.pong.Idle? ==> e.unanswered == 0)
  }

  predicate SameClock(e: Engine, e': Engine) {
    e'.monitor == e.monitor && e'.now == e.now && e'.heard == e.heard && e'.unanswered == e.unanswered
  }

  lemma ConnectClock(e: Engine, env: Env)
    ensures SameClock(e, Connect(e, env))
  {
  }

  lemma PlanClock(e: Engine, plan: Plan, code: int, report: bool, env: Env)
    ensures SameClock(e, ExecutePlan(e, plan, code, report, env))
  {
    hide Connect;
    if plan.ReconnectImmediate? {
      ConnectClock(Dispatch(e, SetConnecting(false)), env);
    }
  }

  lemma CommandClock(e: Engine, ev: Event)
    requires IsCommand(ev)
    ensures var e' := Command(e, ev);
      SameClock(e, e') || SameClock(e.(monitor := Heartbeat.Stopped(e.monitor)), e')
  {
    hide Connect, Heartbeat.Stopped;
    match ev
    case CallConnect(env) => ConnectClock(e, env);
    case CallReconnectNow(env) => ConnectClock(BeginCommand(e, true), env);
    case CallFresh(env) => ConnectClock(BeginCommand(e, true), env);
    case CallSwap(env) =>
      var e1 := BeginCommand(e, true);
      var e2 := Clear(e1);
      if IsActive(e1) {
        var previous := e1.current.value;
        ConnectClock(Update(e2, previous, e2.sockets[previous].(ready := CLOSING)), env);
      } else {
        ConnectClock(e2, env);
      }
    case _ =>
  }

  lemma CloseClock(e: Engine, s: nat, g: nat, code: int, env: Env)
    ensures var e' := OnClose(e, s, g, code, env);
      SameClock(e, e') || SameClock(e.(monitor := Heartbeat.Stopped(e.monitor)), e')
  {
    hide ExecutePlan, ResolvePlan, Heartbeat.Stopped;
    var e0 := if s < |e.sockets| then Update(e, s, e.sockets[s].(ready := CLOSED)) else e;
    if IsCurrent(e0, s, g) && HasCurrent(e0) {
      var e1 := Clear(e0).(monitor := Heartbeat.Stopped(e.monitor), errorGeneration := None);
      PlanClock(e1, ResolvePlan(e.intent, code, e.state.attempt), code, e.errorGeneration != Some(g), env);
    }
  }

  // All that an event can do to the clock and the monitor.
  predicate Heard(e: Engine, e': Engine) {
    && e'.now == e.now && e'.heard == e.now && e'.unanswered == 0
    && (e'.monitor == Heartbeat.Started(e.monitor, e.now) || e'.monitor == Heartbeat.Ponged(e.monitor))
  }

  predicate Pinged(e: Engine, e': Engine) {
    && e'.now == e.now && e'.heard == e.heard && e'.monitor == Heartbeat.Ticked(e.monitor, e.now)
    && e'.unanswered == e.unanswered + if e.monitor.pong.Idle? then 1 else 0
  }

  predicate MonitorChange(e: Engine, ev: Event, e': Engine) {
    || SameClock(e, e')
    || (ev.Wait? && SameClock(e.(now := e.now + ev.ms), e'))
    || SameClock(e.(monitor := Heartbeat.Stopped(e.monitor)), e')
    || (ev.PongTimeoutFires? && SameClock(e.(monitor := Heartbeat.TimedOut(e.monitor)), e'))
    || (ev.PingFires? && Pinged(e, e'))
    || Heard(e, e')
  }

  lemma MonitorChanges(e: Engine, ev: Event)
    ensures MonitorChange(e, ev, Apply(e, ev)) && (ev.Wait? ==> Apply(e, ev).now == e.now + ev.ms)
  {
    hide Command, OnClose, Connect;
    hide Heartbeat.Started, Heartbeat.Ponged, Heartbeat.Stopped, Heartbeat.Ticked, Heartbeat.TimedOut;
    if IsCommand(ev) {
      CommandClock(e, ev);
    } else if ev.SocketCloses? {
      CloseClock(e, ev.socket, ev.generation, ev.code, ev.env);
    } else if ev.ReconnectFires? {
      ConnectClock(e.(reconnect := None), ev.env);
    }
  }

  lemma StepStaysTimed(e: Engine, ev: Event)
    requires Enabled(e, ev) && OnTime(e, ev) && Timed(e)
    ensures Timed(Apply(e, ev))
  {
    hide Apply;
    MonitorChanges(e, ev);
  }

  lemma StepKeepsOnePing(e: Engine, ev: Event)
    requires Enabled(e, ev) && OnePing(e)
    ensures OnePing(Apply(e, ev))
  {
    hide Apply;
    MonitorChanges(e, ev);
  }

  lemma {:induction false} RunStaysTimed(e: Engine, evs: seq<Event>)
    requires Timed(e) && Timely(e, evs)
    ensures Timed(Run(e, evs)) && Possible(e, evs)
    decreases evs
  {
    hide Timed, OnTime, Apply;
    if evs != [] {
      StepStaysTimed(e, evs[0]);
      RunStaysTimed(Apply(e, evs[0]), evs[1..]);
    }
  }

  // Only a socket's own open event and its own pongs count as hearing from it.
  lemma HeardFromItself(e: Engine, ev: Event, i: nat)
    requires i < |e.sockets| && Enabled(e, ev)
    ensures var e' := Apply(e, ev);
      && i < |e'.sockets|
      && (e'.sockets[i].heard != e.sockets[i].heard ==>
            && e'.sockets[i].heard == e.now
            && ((ev.SocketOpens? && ev.socket == i) || (ev.SocketSpeaks? && ev.socket == i && ev.pong)))
  {
    hide Command, OnClose, Connect;
    if IsCommand(ev) {
      CommandHears(e, ev, i);
    } else if ev.SocketCloses? {
      CloseHears(e, ev.socket, ev.generation, ev.code, ev.env, i);
    } else if ev.ReconnectFires? {
      ConnectHears(e.(reconnect := None), ev.env, i);
    }
  }

  predicate SameHeard(e: Engine, e': Engine, i: nat) {
    i < |e.sockets| ==> i < |e'.sockets| && e'.sockets[i].heard == e.sockets[i].heard
  }

  lemma ConnectHears(e: Engine, env: Env, i: nat)
    ensures SameHeard(e, Connect(e, env), i)
  {
  }

  lemma CommandHears(e: Engine, ev: Event, i: nat)
    requires IsCommand(ev)
    ensures SameHeard(e, Command(e, ev), i)
  {
    hide Connect;
    match ev
    case CallConnect(env) => ConnectHears(e, env, i);
    case CallReconnectNow(env) => ConnectHears(BeginCommand(e, true), env, i);
    case CallFresh(env) => ConnectHears(BeginCommand(e, true), env, i);
    case CallSwap(env) =>
      var e1 := BeginCommand(e, true);
      var e2 := Clear(e1);
      if IsActive(e1) {
        var previous := e1.current.value;
        ConnectHears(Update(e2, previous, e2.sockets[previous].(ready := CLOSING)), env, i);
      } else {
        ConnectHears(e2, env, i);
      }
    case _ =>
  }

  lemma CloseHears(e: Engine, s: nat, g: nat, code: int, env: Env, i: nat)
    ensures SameHeard(e, OnClose(e, s, g, code, env), i)
  {
    hide ResolvePlan, Connect;
    var e0 := if s < |e.sockets| then Update(e, s, e.sockets[s].(ready := CLOSED)) else e;
    if IsCurrent(e0, s, g) && HasCurrent(e0) {
      var e1 := Clear(e0).(monitor := Heartbeat.Stopped(e.monitor), errorGeneration := None);
      ConnectHears(Dispatch(e1, SetConnecting(false)), env, i);
    }
  }

  // With timers that run when they are due, an open socket that nobody is
  // closing opened, or sent a pong, within the last 24 seconds.
  lemma SilentPeerIsClosed(evs: seq<Event>, e: Engine)
    requires Timely(FRESH, evs) && Run(FRESH, evs) == e
    ensures IsActive(e) && Current(e).wasOpen ==> e.now <= Current(e).heard + 24000
  {
    RunStaysTimed(FRESH, evs);
    ReachableInv(evs, e);
  }

  // The pong timeout closes that socket, and its close event, with the code the
  // timeout gave, brings the first reconnect.
  lemma SilentPeerIsReplaced(evs: seq<Event>, e: Engine, env: Env)
    requires Reachable(evs, e) && IsActive(e) && Current(e).wasOpen
    ensures var e1 := PongTimeout(e);
            var e2 := OnClose(e1, e.current.value, e.generation, PONG_TIMEOUT_CODE, env);
      && Current(e1).ready == CLOSING && e1.current == e.current
      && e2.current.None? && e2.reconnect == Some(ReconnectDelayMs(0))
      && e2.state.status.Reconnecting? && e2.state.attempt == 1
  {
    hide ReconnectDelayMs;
    ReachableInv(evs, e);
  }

  lemma {:induction false} RunKeepsOnePing(e: Engine, evs: seq<Event>)
    requires OnePing(e) && Possible(e, evs)
    ensures OnePing(Run(e, evs))
    decreases evs
  {
    hide OnePing, Enabled, Apply;
    if evs != [] {
      StepKeepsOnePing(e, evs[0]);
      RunKeepsOnePing(Apply(e, evs[0]), evs[1..]);
    }
  }

  lemma AtMostOneUnansweredPing(evs: seq<Event>, e: Engine)
    requires Reachable(evs, e)
    ensures e.unanswered <= 1
  {
    RunKeepsOnePing(FRESH, evs);
  }
}
