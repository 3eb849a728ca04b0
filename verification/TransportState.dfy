// The transport state that the interface shows, and what a closed socket means for it.

module TransportState {
  import opened Wrappers
  import TransportPolicy

  datatype Status = Connecting | Connected | Reconnecting | Closed | Errored

  datatype Failure =
    | SendFailed
    | BootstrapFailed
    | SocketError
    | SocketClosed(code: int)
    | Exhausted(attempt: nat)

  datatype State = State(status: Status, attempt: nat, latencyMs: Option<int>, failure: Option<Failure>)

  const INITIAL_STATE := State(Connecting, 0, None, None)

  datatype Notice =
    | SetConnecting(reconnecting: bool)
    | SetConnected
    | SocketDown
    | SocketErrored
    | Latency(ms: int)
    | SocketFailure(failure: Failure)
    | ScheduleReconnect(attempt: nat)
    | ClearAttempts

  function Reduce(s: State, n: Notice): (s': State) {
    match n
    case SetConnecting(reconnecting) => s.(status := if reconnecting then Reconnecting else Connecting)
    case SetConnected => State(Connected, 0, None, None)
    case SocketDown => s.(status := Closed)
    case SocketErrored => s.(status := Errored)
    case Latency(ms) => s.(latencyMs := Some(ms))
    case SocketFailure(failure) => s.(failure := Some(failure))
    case ScheduleReconnect(attempt) => s.(status := Reconnecting, attempt := attempt)
    case ClearAttempts => s.(attempt := 0)
  }

  datatype Intent = Normal | Fresh | Manual | Dispose

  datatype Plan =
    | Disposed
    | ReconnectImmediate
    | NonRecoverable
    | ReconnectExhausted(attempt: nat)
    | Reconnect(attempt: nat, delayMs: nat)

  function ResolvePlan(intent: Intent, code: int, attempt: nat): (p: Plan) {
    if intent == Dispose then Disposed
    else if intent != Normal then ReconnectImmediate
    else if !TransportPolicy.IsRecoverable(code) then NonRecoverable
    else if attempt >= TransportPolicy.MAX_ATTEMPTS then ReconnectExhausted(attempt)
    else Reconnect(attempt + 1, TransportPolicy.ReconnectDelayMs(attempt))
  }
}
