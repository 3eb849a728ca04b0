// What the transport achieves: when a socket is made, what an open, a pong and
// a dispose do, and that a peer that answers is left alone.

module TransportProgress {
  import opened Wrappers
  import opened TransportPolicy
  import opened TransportState
  import opened Transport
  import opened TransportTheorems
  import Heartbeat

  // ------------------------------------------------------------- connecting

  // A new, active current socket and nothing else new.
  predicate Made(e: Engine, e': Engine, env: Env) {
    && |e'.sockets| == |e.sockets| + 1 && e'.current == Some(|e.sockets|) && IsActive(e')
    && Current(e') == Socket(CONNECTING, e.generation + 1, true, false, false, 0)
    && e'.state.status == (if env.hasSession then Reconnecting else Connecting)
    && e'.intent == Normal
  }

  // No socket, and the failure reported.
  predicate Failed(e: Engine, e': Engine) {
    && |e'.sockets| == |e.sockets| && !IsActive(e') && e'.state.status.Errored?
    && e'.reports == e.reports + [BootstrapFailed]
  }

  predicate Connects(e: Engine, e': Engine, env: Env) {
    if env.created then Made(e, e', env) else Failed(e, e')
  }

  lemma ConnectProgress(e: Engine, env: Env)
    ensures var e' := Connect(e, env);
      if IsActive(e) then e' == e else Connects(e, e', env) && e'.state.attempt == e.state.attempt
  {
  }

  // connect, and a reconnect timer that runs, make a socket unless one is
  // active.
  lemma ConnectAndTimerMakeSockets(e: Engine, env: Env)
    ensures !IsActive(e) ==> Connects(e, Apply(e, CallConnect(env)), env)
    ensures e.reconnect.Some? && !IsActive(e) ==>
      Connects(e, Apply(e, ReconnectFires(env)), env) && Apply(e, ReconnectFires(env)).reconnect.None?
  {
    hide Connect;
    ConnectProgress(e, env);
    ConnectProgress(e.(reconnect := None), env);
    ConnectUnarmed(e.(reconnect := None), env);
  }

  // A change of endpoint always makes one and closes the old one.
  lemma SwapMakesSocket(e: Engine, env: Env)
    requires OneSocket(e)
    ensures var e' := Apply(e, CallSwap(env));
      && Connects(e, e', env) && e'.state.attempt == 0
      && (e.current.Some? ==>
            e'.sockets[e.current.value].ready >= CLOSING && !e'.sockets[e.current.value].listening)
  {
    hide Connect;
    var e1 := BeginCommand(e, true);
    var e2 := Clear(e1);
    if IsActive(e1) {
      var previous := e1.current.value;
      var e3 := Update(e2, previous, e2.sockets[previous].(ready := CLOSING));
      ConnectProgress(e3, env);
      ConnectLeavesOthers(e3, env, previous);
    } else {
      ConnectProgress(e2, env);
      if e.current.Some? {
        ConnectLeavesOthers(e2, env, e.current.value);
      }
    }
  }

  lemma ConnectLeavesOthers(e: Engine, env: Env, i: nat)
    requires i < |e.sockets| && e.current != Some(i)
    ensures i < |Connect(e, env).sockets| && Connect(e, env).sockets[i] == e.sockets[i]
  {
  }

  // A manual reconnect, or a fresh session, connects at once when no socket is
  // active; otherwise it closes the active one, and its close event connects.
  lemma ReconnectCommand(e: Engine, anew: bool, env: Env, code: int, later: Env)
    requires OneSocket(e)
    ensures var e' := Apply(e, if anew then CallFresh(env) else CallReconnectNow(env));
      && e'.state.attempt == 0 && e'.reconnect.None?
      && if IsActive(e) then
           && e'.current == e.current && Current(e').ready == CLOSING && |e'.sockets| == |e.sockets|
           && e'.intent == (if anew then Fresh else Manual)
           && Connects(e', OnClose(e', e.current.value, e.generation, code, later), later)
         else Connects(e, e', env)
  {
    hide Connect, OnClose, Connects;
    if IsActive(e) {
      var e' := Apply(e, if anew then CallFresh(env) else CallReconnectNow(env));
      WantedCloseConnects(e', code, later);
    } else {
      var e1 := BeginCommand(e, true);
      ConnectProgress(e1, env);
      ConnectUnarmed(e1, env);
      SameSockets(e, e1, Connect(e1, env), env, false);
    }
  }

  // Neither the beginning of the command nor its logs matter.
  lemma SameSockets(e: Engine, e1: Engine, e': Engine, env: Env, parked: bool)
    requires e1.sockets == e.sockets && e1.generation == e.generation && e1.reports == e.reports
    requires Connects(e1, e', env)
    ensures Connects(e, e'.(started := true, parked := parked), env)
  {
  }

  // The close event of a socket that was closed to get a new one.
  lemma WantedCloseConnects(e: Engine, code: int, env: Env)
    requires HasCurrent(e) && (e.intent == Fresh || e.intent == Manual)
    ensures Connects(e, OnClose(e, e.current.value, e.generation, code, env), env)
  {
    hide Connect;
    var i := e.current.value;
    var e0 := Update(e, i, e.sockets[i].(ready := CLOSED));
    var e1 := Clear(e0).(monitor := Heartbeat.Stopped(e.monitor), errorGeneration := None);
    ConnectProgress(Dispatch(e1, SetConnecting(false)), env);
  }

  // The close of a socket nobody closed on purpose ends for good after these
  // codes (normal, going away, protocol error, unsupported data, invalid
  // payload, policy violation, too big, missing extension, internal error in
  // section 7.4.1 of RFC 6455), and is followed by a reconnect after others.
  predicate Final(code: int) {
    1000 <= code <= 1003 || 1007 <= code <= 1011
  }

  lemma RecoverableExactly(code: int)
    ensures IsRecoverable(code) <==> !Final(code)
  {
  }

  // From the loss of a connection to the next one: the timer is armed for the
  // delay of this attempt, and running it makes a socket.
  lemma LostConnectionReturns(evs: seq<Event>, e: Engine, code: int, env: Env, later: Env)
    requires Reachable(evs, e) && HasCurrent(e) && e.intent == Normal && !Final(code) && e.state.attempt < MAX_ATTEMPTS
    ensures var e1 := Apply(e, SocketCloses(e.current.value, e.generation, code, env));
      && e1.reconnect == Some(ReconnectDelayMs(e.state.attempt)) && e1.current.None?
      && Enabled(e1, ReconnectFires(later))
      && Connects(e1, Apply(e1, ReconnectFires(later)), later)
  {
    hide ReconnectDelayMs, Reachable, Connect, OnClose, IsRecoverable;
    RecoverableExactly(code);
    UnwantedClose(evs, e, e.generation, code, env);
    var e1 := Apply(e, SocketCloses(e.current.value, e.generation, code, env));
    assert e1.current.None? by { ClosedForRetry(e, code, env); }
    ConnectAndTimerMakeSockets(e1, later);
  }

  lemma ClosedForRetry(e: Engine, code: int, env: Env)
    requires HasCurrent(e) && e.intent == Normal && IsRecoverable(code) && e.state.attempt < MAX_ATTEMPTS
    ensures OnClose(e, e.current.value, e.generation, code, env).current.None?
  {
    hide ReconnectDelayMs, IsRecoverable;
  }

  // The delays: 300 ms, growing by 1.8 each, rounded down, at most 5 s.
  lemma Delays(attempt: nat)
    ensures ReconnectDelayMs(attempt) ==
            match attempt
            case 0 => 300
            case 1 => 540
            case 2 => 972
            case 3 => 1749
            case 4 => 3149
            case _ => 5000
  {
    assert Power(9, 1) == 9 && Power(9, 2) == 81 && Power(9, 3) == 729 && Power(9, 4) == 6561 && Power(9, 5) == 59049;
    assert Power(5, 1) == 5 && Power(5, 2) == 25 && Power(5, 3) == 125 && Power(5, 4) == 625 && Power(5, 5) == 3125;
    if attempt >= 5 {
      DelaysAreMonotone(5, attempt);
    }
  }

  // -------------------------------------------------------- opening and closing

  lemma OpenConnects(evs: seq<Event>, e: Engine)
    requires Reachable(evs, e) && HasCurrent(e)
    ensures var e' := Apply(e, SocketOpens(e.current.value, e.generation));
      && e'.state == State(Connected, 0, None, None) && e'.current == e.current && e'.sockets[e.current.value].wasOpen
      && e'.errorGeneration.None? && e'.reconnect == e.reconnect
      && e'.monitor.pingDue == Some(e.now + 12000) && e'.monitor.pong.Idle?
  {
    ReachableInv(evs, e);
  }

  lemma ErrorIsReported(evs: seq<Event>, e: Engine)
    requires Reachable(evs, e) && HasCurrent(e)
    ensures var e' := Apply(e, SocketErrs(e.current.value, e.generation));
      && e'.state == e.state.(status := Errored, failure := Some(SocketError))
      && e'.reports == e.reports + [SocketError] && e'.current == e.current && e'.reconnect == e.reconnect
  {
    ReachableInv(evs, e);
  }

  lemma FailedSendIsReported(e: Engine, fails: bool)
    ensures var e' := Apply(e, CallSend(fails));
      if IsActive(e) && Current(e).ready == OPEN && fails then
        && e' == e.(state := e'.state, reports := e.reports + [SendFailed])
        && e'.state == e.state.(status := Errored, failure := Some(SendFailed))
      else e' == e
  {
  }

  // Dispose closes the active socket, whose close event ends in status closed;
  // without one it ends there at once.
  lemma DisposeCloses(evs: seq<Event>, e: Engine, code: int, env: Env)
    requires Reachable(evs, e)
    ensures var e' := Apply(e, CallDispose);
      && e'.reconnect.None? && !IsActive(e') && !Heartbeat.Running(e'.monitor) && e'.reports == e.reports
      && if IsActive(e) then
           && e'.current == e.current && Current(e').ready == CLOSING && e'.state == e.state
           && var e2 := OnClose(e', e.current.value, e.generation, code, env);
           && e2.state == e'.state.(status := Closed) && e2.current.None? && e2.reports == e.reports
         else e'.current.None? && e'.state == e.state.(status := Closed)
  {
    hide ReconnectDelayMs, IsRecoverable;
    ReachableInv(evs, e);
  }

  // -------------------------------------------------------------- heartbeat

  // A ping is due every 12 s; it is sent, with a timeout 12 s later, unless one
  // is outstanding.
  lemma PingsRegularly(e: Engine, fails: bool)
    requires Enabled(e, PingFires(fails))
    ensures var m, m' := e.monitor, Apply(e, PingFires(fails)).monitor;
      && m'.pingDue == Some(e.now + 12000)
      && (if m.pong.Idle? then m'.pong == Heartbeat.Waiting(e.now + 12000) && m'.sentAt == Some(e.now)
          else m'.pong == m.pong && m'.sentAt == m.sentAt)
  {
  }

  // A pong of the current socket disarms the timeout and publishes the time
  // since the ping it answers.
  lemma PongIsTaken(evs: seq<Event>, e: Engine)
    requires Reachable(evs, e) && HasCurrent(e)
    ensures var e' := Apply(e, SocketSpeaks(e.current.value, e.generation, true));
      && e'.monitor == e.monitor.(pong := Heartbeat.Idle, sentAt := None)
      && !Enabled(e', PongTimeoutFires)
      && e'.unanswered == 0 && e'.heard == e.now
      && e'.state ==
         if e.monitor.sentAt.Some? then e.state.(latencyMs := Some(e.now - e.monitor.sentAt.value)) else e.state
  {
    ReachableInv(evs, e);
  }

  // Stopping and restarting the heartbeat forgets no ping time: only a ping and
  // a pong change it, so a first pong on a new socket is measured from the last
  // ping on an older one that was never answered.
  lemma PingTimeIsKept(e: Engine, ev: Event)
    requires !ev.PingFires? && !ev.SocketSpeaks?
    ensures Apply(e, ev).monitor.sentAt == e.monitor.sentAt
  {
    hide Command, OnClose, Connect;
    if IsCommand(ev) {
      CommandClock(e, ev);
    } else if ev.SocketCloses? {
      CloseClock(e, ev.socket, ev.generation, ev.code, ev.env);
    } else if ev.ReconnectFires? {
      ConnectClock(e.(reconnect := None), ev.env);
    }
  }

  // An armed timeout belongs to the one unanswered ping, sent after the last
  // sign of life.
  predicate Expecting(e: Engine) {
    && e.heard <= e.now
    && (e.monitor.pong.Waiting? ==>
          && e.unanswered == 1 && e.monitor.sentAt.Some?
          && e.heard <= e.monitor.sentAt.value && e.monitor.pong.due == e.monitor.sentAt.value + 12000)
    && (e.monitor.pong.Idle? ==> e.unanswered == 0 || !Heartbeat.Running(e.monitor))
  }

  lemma StepKeepsExpecting(e: Engine, ev: Event)
    requires Expecting(e) && Enabled(e, ev)
    ensures Expecting(Apply(e, ev))
  {
    hide Apply;
    MonitorChanges(e, ev);
  }

  lemma {:induction false} RunKeepsExpecting(e: Engine, evs: seq<Event>)
    requires Expecting(e) && Possible(e, evs)
    ensures Expecting(Run(e, evs))
    decreases evs
  {
    hide Expecting, Apply, Enabled;
    if evs != [] {
      StepKeepsExpecting(e, evs[0]);
      RunKeepsExpecting(Apply(e, evs[0]), evs[1..]);
    }
  }

  // So the timeout closes no socket that answered its last ping: when it runs,
  // on time, the current socket was silent for the 12 s since that ping.
  lemma AnsweringPeerIsKept(evs: seq<Event>, e: Engine)
    requires Reachable(evs, e) && Enabled(e, PongTimeoutFires)
    ensures e.unanswered == 1 && e.monitor.sentAt.Some? && e.heard <= e.monitor.sentAt.value
    ensures e.monitor.pong.due == e.monitor.sentAt.value + 12000
    ensures OnTime(e, PongTimeoutFires) && IsActive(e) && Current(e).wasOpen ==> Current(e).heard + 12000 <= e.now
  {
    hide Core;
    RunKeepsExpecting(FRESH, evs);
    ReachableInv(evs, e);
    HeardMatches(e);
  }

  lemma HeardMatches(e: Engine)
    requires Core(e)
    ensures IsActive(e) && Current(e).wasOpen ==> Current(e).heard == e.heard
  {
  }
}
