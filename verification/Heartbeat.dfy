// The ping/pong monitor of one transport: at most one unanswered ping, and a
// timeout for it. Times are scheduler milliseconds.

module Heartbeat {
  import opened Wrappers

  const INTERVAL := 12000
  const PONG_TIMEOUT := 12000

  // The handle `pongTimeout`. Running out does not set it to null, so a spent
  // handle keeps further pings back until a pong or a stop clears it.
  datatype PongTimer = Idle | Waiting(due: nat) | Spent

  // `pingDue` is when the interval timer runs next.
  datatype Monitor = Monitor(pingDue: Option<nat>, pong: PongTimer, sentAt: Option<nat>)

  const STOPPED := Monitor(None, Idle, None)

  function Stopped(m: Monitor): (m': Monitor) {
    m.(pingDue := None, pong := Idle)
  }

  function Started(m: Monitor, now: nat): (m': Monitor) {
    Stopped(m).(pingDue := Some(now + INTERVAL))
  }

  // One run of the interval timer.
  function Ticked(m: Monitor, now: nat): (m': Monitor) {
    var again := m.(pingDue := Some(now + INTERVAL));
    if m.pong.Idle? then again.(pong := Waiting(now + PONG_TIMEOUT), sentAt := Some(now)) else again
  }

  function Ponged(m: Monitor): (m': Monitor) {
    m.(pong := Idle, sentAt := None)
  }

  function TimedOut(m: Monitor): (m': Monitor) {
    if m.pong.Waiting? then m.(pong := Spent) else m
  }

  predicate Running(m: Monitor) {
    m.pingDue.Some?
  }

  // No timer of the monitor is overdue.
  predicate Punctual(m: Monitor, now: nat) {
    && (m.pingDue.Some? ==> now <= m.pingDue.value)
    && (m.pong.Waiting? ==> now <= m.pong.due)
  }

  // How far the timers may be ahead of the last sign of life.
  predicate Tracks(m: Monitor, heard: nat, now: nat) {
    && (m.pingDue.Some? ==> m.pingDue.value <= now + INTERVAL)
    && (m.pingDue.Some? && m.pong.Idle? ==> m.pingDue.value <= heard + INTERVAL)
    && (m.pong.Waiting? ==> m.pong.due <= heard + INTERVAL + PONG_TIMEOUT)
  }

  // The object that the reliability coordinator owns. Setting and clearing a
  // timer is assigning its due time.
  class HeartbeatMonitor {
    var pingTimer: Option<nat>
    var pongTimeout: PongTimer
    var pingSentAt: Option<nat>

    ghost function View(): (m: Monitor)
      reads this
    {
      Monitor(pingTimer, pongTimeout, pingSentAt)
    }

    constructor ()
      ensures View() == STOPPED
    {
      pingTimer, pongTimeout, pingSentAt := None, Idle, None;
    }

    method Start(now: nat)
      modifies this
      ensures View() == Started(old(View()), now)
    {
      Stop();
      pingTimer := Some(now + INTERVAL);
    }

    // The interval's callback; `ping` asks the caller to send one.
    method OnInterval(now: nat) returns (ping: bool)
      modifies this
      ensures View() == Ticked(old(View()), now) && ping == old(pongTimeout).Idle?
    {
      pingTimer := Some(now + INTERVAL);
      if !pongTimeout.Idle? {
        return false;
      }
      pingSentAt := Some(now);
      pongTimeout := Waiting(now + PONG_TIMEOUT);
      ping := true;
    }

    method OnPongTimeout()
      modifies this
      ensures View() == TimedOut(old(View()))
    {
      if pongTimeout.Waiting? {
        pongTimeout := Spent;
      }
    }

    method MarkPong(now: nat) returns (latency: Option<int>)
      modifies this
      ensures View() == Ponged(old(View()))
      ensures latency == if old(pingSentAt).Some? then Some(now - old(pingSentAt).value) else None
    {
      latency := None;
      if pingSentAt.Some? {
        latency := Some(now - pingSentAt.value);
        pingSentAt := None;
      }
      ClearPongTimeout();
    }

    method Stop()
      modifies this
      ensures View() == Stopped(old(View()))
    {
      pingTimer := None;
      ClearPongTimeout();
    }

    method ClearPongTimeout()
      modifies this`pongTimeout
      ensures pongTimeout == Idle
    {
      pongTimeout := Idle;
    }
  }
}
