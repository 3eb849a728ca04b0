// The polling loop of the session menu: one request or one timer at a time,
// back-off, and a circuit breaker.

module RefreshPolling {
  import opened Wrappers
  import opened RefreshCoordinator

  const INTERVAL_MS := 4000
  const MAX_BACKOFF_MS := 32000
  const FAILURE_LIMIT := 6
  const COOLDOWN_MS := 60000
  const BOOTSTRAP_RETRY_MS := 30000

  function PowerOfTwo(n: nat): (r: nat)
    ensures r > 0
  {
    if n == 0 then 1 else 2 * PowerOfTwo(n - 1)
  }

  function NextDelayMs(failures: nat): (ms: nat) {
    if failures == 0 then INTERVAL_MS
    else
      var grown := INTERVAL_MS * PowerOfTwo(if failures - 1 < 3 then failures - 1 else 3);
      if grown < MAX_BACKOFF_MS then grown else MAX_BACKOFF_MS
  }

  lemma {:induction false} BackoffGrows(a: nat, b: nat)
    requires a <= b
    ensures INTERVAL_MS <= NextDelayMs(a) <= NextDelayMs(b) <= MAX_BACKOFF_MS
  {
    assert PowerOfTwo(1) == 2 && PowerOfTwo(2) == 4 && PowerOfTwo(3) == 8;
    if 0 < a < b {
      BackoffGrows(a - 1, b - 1);
    }
  }

  datatype Kind = Succeeded | Ignored | BootstrapRetry | Counted

  function Classify(result: Result): (k: Kind) {
    match result
    case Success => Succeeded
    case Failed(reason) =>
      if reason == Aborted || reason == Superseded then Ignored
      else if reason == BootstrapError then BootstrapRetry
      else Counted
  }

  // Where the current request is: between the calls of then and finally it has
  // been handled, but refreshInFlight still holds.
  datatype Flight = NoFlight | Waiting | Handled

  datatype Timer = Next(delayMs: nat) | Bootstrap | Cooldown

  function DelayOf(t: Timer): (ms: nat) {
    match t
    case Next(delayMs) => delayMs
    case Bootstrap => BOOTSTRAP_RETRY_MS
    case Cooldown => COOLDOWN_MS
  }

  datatype Mark = Ended(result: Result) | Rejected | Cooled | Woken

  // `timer` is the handle and `armed` whether it will still run; `history`,
  // the outcomes so far, and `requests`, how many were made, are logs.
  datatype Loop = Loop(
    flight: Flight, aborted: bool, disposed: bool, timer: Option<Timer>, armed: bool, failures: nat, circuitOpen: bool,
    history: seq<Mark>, requests: nat)

  const BEFORE := Loop(NoFlight, false, false, None, false, 0, false, [], 0)

  function RunLoop(p: Loop): (p': Loop) {
    if p.disposed || p.flight != NoFlight || p.circuitOpen then p
    else p.(flight := Waiting, aborted := false, requests := p.requests + 1)
  }

  function ArmTimer(p: Loop, t: Timer): (p': Loop) {
    if p.disposed then p else p.(timer := Some(t), armed := true)
  }

  // The then-callback.
  function OnResult(p: Loop, result: Result): (p': Loop) {
    var kind := Classify(result);
    var p1 := p.(flight := Handled, history := p.history + [Ended(result)]);
    match kind
    case Succeeded => p1.(failures := 0)
    case Ignored => p1
    case BootstrapRetry => ArmTimer(p1.(failures := 0), Bootstrap)
    case Counted =>
      var p2 := p1.(failures := p.failures + 1);
      if p2.failures >= FAILURE_LIMIT && !p.disposed && !p.circuitOpen
      then ArmTimer(p2.(circuitOpen := true), Cooldown) else p2
  }

  function OnFinally(p: Loop): (p': Loop) {
    var p1 := p.(flight := NoFlight);
    if !p.circuitOpen && p.timer.None? then ArmTimer(p1, Next(NextDelayMs(p.failures))) else p1
  }

  function OnTimer(p: Loop): (p': Loop) {
    var p1 := p.(timer := None, armed := false);
    if p.timer == Some(Cooldown) then
      if p.disposed then p1
      else RunLoop(p1.(circuitOpen := false, failures := 0, history := p.history + [Cooled]))
    else RunLoop(p1.(history := p.history + [Woken]))
  }

  function OnDispose(p: Loop): (p': Loop) {
    p.(disposed := true, armed := false, aborted := p.aborted || p.flight != NoFlight)
  }

  datatype PollEvent = Resolves(result: Result) | Rejects | RunsFinally | TimerRuns | Disposes

  predicate CanHappen(p: Loop, ev: PollEvent) {
    match ev
    case Resolves(_) => p.flight == Waiting
    case Rejects => p.flight == Waiting
    case RunsFinally => p.flight == Handled
    case TimerRuns => p.armed
    case Disposes => true
  }

  function Poll(p: Loop, ev: PollEvent): (p': Loop) {
    match ev
    case Resolves(result) => OnResult(p, result)
    case Rejects => p.(flight := Handled, history := p.history + [Rejected])
    case RunsFinally => OnFinally(p)
    case TimerRuns => OnTimer(p)
    case Disposes => OnDispose(p)
  }

  predicate AllCanHappen(p: Loop, evs: seq<PollEvent>)
    decreases evs
  {
    evs == [] || (CanHappen(p, evs[0]) && AllCanHappen(Poll(p, evs[0]), evs[1..]))
  }

  function PollAll(p: Loop, evs: seq<PollEvent>): (p': Loop)
    decreases evs
  {
    if evs == [] then p else PollAll(Poll(p, evs[0]), evs[1..])
  }

  // A refresh that failed, as opposed to one that was given up.
  predicate Counts(m: Mark) {
    m.Ended? && m.result.Failed? && m.result.reason in {TimedOut, NetworkError, PipelineError, BadResponse}
  }

  predicate Resets(m: Mark) {
    m.Cooled? || m == Ended(Success) || m == Ended(Failed(BootstrapError))
  }

  // The failures since the last success, bootstrap error or cooldown.
  function Streak(history: seq<Mark>): (n: nat) {
    if history == [] then 0
    else
      var last, before := history[|history| - 1], history[..|history| - 1];
      if Resets(last) then 0 else if Counts(last) then Streak(before) + 1 else Streak(before)
  }

  // The outcome just handled set a timer of its own, which has not run yet.
  predicate SetsTimer(history: seq<Mark>) {
    AfterBootstrapError(history) || Streak(history) == FAILURE_LIMIT
  }

  predicate AfterBootstrapError(history: seq<Mark>) {
    history != [] && history[|history| - 1] == Ended(Failed(BootstrapError))
  }

  predicate Sound(p: Loop) {
    && p.failures == Streak(p.history)
    && (p.disposed ==> !p.armed && (p.flight != NoFlight ==> p.aborted))
    && (!p.disposed ==>
          && (p.circuitOpen <==> Streak(p.history) >= FAILURE_LIMIT) && Streak(p.history) <= FAILURE_LIMIT
          && (p.armed <==> p.timer.Some?)
          && (p.circuitOpen <==> p.timer == Some(Cooldown))
          && (p.flight == Waiting ==> !p.armed)
          && (p.flight == NoFlight ==> p.armed)
          && (p.flight == Handled ==> (p.armed <==> SetsTimer(p.history)))
          && (p.armed ==> (p.timer == Some(Bootstrap) <==> AfterBootstrapError(p.history)))
          && (p.armed && p.timer.value.Next? ==>
                p.flight == NoFlight && DelayOf(p.timer.value) == NextDelayMs(p.failures)))
  }

  lemma StreakSnoc(history: seq<Mark>, last: Mark)
    ensures Streak(history + [last]) ==
            if Resets(last) then 0 else if Counts(last) then Streak(history) + 1 else Streak(history)
  {
    assert (history + [last])[..|history|] == history;
  }

  lemma StepStaysSound(p: Loop, ev: PollEvent)
    requires Sound(p) && CanHappen(p, ev)
    ensures Sound(Poll(p, ev))
    ensures p.disposed ==>
      Poll(p, ev).disposed && Poll(p, ev).requests == p.requests && Poll(p, ev).circuitOpen == p.circuitOpen
  {
    hide NextDelayMs, PowerOfTwo, Streak;
    if ev.Resolves? {
      StreakSnoc(p.history, Ended(ev.result));
    } else if ev.TimerRuns? {
      StreakSnoc(p.history, Cooled);
      StreakSnoc(p.history, Woken);
    } else if ev.Rejects? {
      StreakSnoc(p.history, Rejected);
    }
  }

  lemma {:induction false} RunStaysSound(p: Loop, evs: seq<PollEvent>)
    requires Sound(p) && AllCanHappen(p, evs)
    ensures Sound(PollAll(p, evs))
    ensures p.disposed ==>
      PollAll(p, evs).disposed && PollAll(p, evs).requests == p.requests && PollAll(p, evs).circuitOpen == p.circuitOpen
    decreases evs
  {
    hide Sound, Poll, CanHappen;
    if evs != [] {
      StepStaysSound(p, evs[0]);
      RunStaysSound(Poll(p, evs[0]), evs[1..]);
    }
  }

  predicate Reached(p: Loop, evs: seq<PollEvent>) {
    AllCanHappen(RunLoop(BEFORE), evs) && PollAll(RunLoop(BEFORE), evs) == p
  }

  lemma SoundOf(p: Loop, evs: seq<PollEvent>)
    requires Reached(p, evs)
    ensures Sound(p)
  {
    RunStaysSound(RunLoop(BEFORE), evs);
  }

  // While the menu is open there is exactly one of a request and a timer. Both
  // are there only between then and finally, exactly if the outcome was a
  // bootstrap error or has opened the circuit and its timer has not run. Afterwards there is no timer.
  lemma OneRequestOrOneTimer(p: Loop, evs: seq<PollEvent>)
    requires Reached(p, evs)
    ensures !p.disposed && p.flight != Handled ==> (p.flight == Waiting <==> !p.armed)
    ensures !p.disposed && p.flight == Handled ==> (p.armed <==> SetsTimer(p.history))
    ensures p.disposed ==> !p.armed && (p.flight != NoFlight ==> p.aborted)
  {
    SoundOf(p, evs);
  }

  lemma NothingAfterDisposal(p: Loop, evs: seq<PollEvent>, more: seq<PollEvent>)
    requires Reached(p, evs) && AllCanHappen(OnDispose(p), more)
    ensures var p' := PollAll(OnDispose(p), more);
      !p'.armed && p'.requests == p.requests && p'.circuitOpen == p.circuitOpen
  {
    SoundOf(p, evs);
    StepStaysSound(p, Disposes);
    RunStaysSound(OnDispose(p), more);
  }

  // The circuit opens at the sixth counted failure since the last reset, and
  // stays open until its cooldown; other outcomes never open it.
  lemma CircuitOpensAtTheLimit(p: Loop, evs: seq<PollEvent>, result: Result)
    requires Reached(p, evs) && CanHappen(p, Resolves(result)) && !p.disposed
    ensures OnResult(p, result).circuitOpen <==> Counts(Ended(result)) && Streak(p.history) == 5
    ensures OnResult(p, result).circuitOpen ==> OnResult(p, result).timer == Some(Cooldown)
    ensures !Counts(Ended(result)) && !Resets(Ended(result)) ==> OnResult(p, result).failures == Streak(p.history)
  {
    hide NextDelayMs, PowerOfTwo, Streak, Reached;
    SoundOf(p, evs);
    StreakSnoc(p.history, Ended(result));
  }

  // An armed timer waits a minute after the sixth failure, half a minute after
  // a bootstrap error, and else the back-off of the streak.
  lemma TimersFollowTheHistory(p: Loop, evs: seq<PollEvent>)
    requires Reached(p, evs) && p.armed
    ensures p.timer.Some? && DelayOf(p.timer.value) ==
            if Streak(p.history) == 6 then 60000
            else if AfterBootstrapError(p.history) then 30000
            else NextDelayMs(Streak(p.history))
  {
    SoundOf(p, evs);
  }

  // While the circuit is closed the next poll waits by the length of the streak.
  lemma PollsBackOff(p: Loop, evs: seq<PollEvent>)
    requires Reached(p, evs) && CanHappen(p, RunsFinally) && !p.disposed && p.timer.None?
    ensures Streak(p.history) < FAILURE_LIMIT
    ensures OnFinally(p).timer == Some(Next(NextDelayMs(Streak(p.history))))
    ensures NextDelayMs(Streak(p.history)) ==
            match Streak(p.history)
            case 0 => 4000
            case 1 => 4000
            case 2 => 8000
            case 3 => 16000
            case _ => 32000
  {
    SoundOf(p, evs);
    assert PowerOfTwo(1) == 2 && PowerOfTwo(2) == 4 && PowerOfTwo(3) == 8;
  }

  // -------------------------------------------------------------- the object

  // The variables of the effect's closure.
  class RefreshLoop {
    var refreshInFlight: bool
    var disposed: bool
    var refreshTimer: Option<Timer>
    var armed: bool
    var consecutiveFailures: nat
    var circuitOpen: bool
    var controllerAborted: bool
    ghost var handled: bool
    ghost var history: seq<Mark>
    ghost var requests: nat

    ghost function View(): (p: Loop)
      reads this
    {
      Loop(if !refreshInFlight then NoFlight else if handled then Handled else Waiting,
           controllerAborted, disposed, refreshTimer, armed, consecutiveFailures, circuitOpen, history, requests)
    }

    constructor ()
      ensures View() == RunLoop(BEFORE)
    {
      refreshInFlight, disposed, refreshTimer, armed := false, false, None, false;
      consecutiveFailures, circuitOpen := 0, false;
      controllerAborted, handled, history, requests := false, false, [], 0;
      new;
      RunRefreshLoop();
    }

    method RunRefreshLoop()
      modifies this
      ensures View() == RunLoop(old(View()))
    {
      if disposed || refreshInFlight || circuitOpen {
        return;
      }
      refreshInFlight, handled := true, false;
      controllerAborted := false;
      requests := requests + 1;
    }

    method SetTimer(t: Timer)
      modifies this`refreshTimer, this`armed
      ensures View() == ArmTimer(old(View()), t)
    {
      if disposed {
        return;
      }
      refreshTimer, armed := Some(t), true;
    }

    method HandleResult(result: Result)
      requires refreshInFlight
      modifies this
      ensures View() == OnResult(old(View()), result)
    {
      var kind := Classify(result);
      handled, history := true, history + [Ended(result)];
      if kind == Succeeded {
        consecutiveFailures := 0;
        return;
      }
      if kind == Ignored {
        return;
      }
      if kind == BootstrapRetry {
        consecutiveFailures := 0;
        SetTimer(Bootstrap);
        return;
      }
      consecutiveFailures := consecutiveFailures + 1;
      if consecutiveFailures >= FAILURE_LIMIT {
        OpenCircuitBreaker();
      }
    }

    method OpenCircuitBreaker()
      modifies this
      ensures View() == if old(disposed || circuitOpen) then old(View())
                        else ArmTimer(old(View()).(circuitOpen := true), Cooldown)
    {
      if disposed || circuitOpen {
        return;
      }
      circuitOpen := true;
      SetTimer(Cooldown);
    }

    method HandleFinally()
      requires refreshInFlight
      modifies this
      ensures View() == OnFinally(old(View()))
    {
      refreshInFlight := false;
      if !circuitOpen && refreshTimer.None? {
        SetTimer(Next(NextDelayMs(consecutiveFailures)));
      }
    }

    method HandleTimer()
      modifies this
      ensures View() == OnTimer(old(View()))
    {
      var cooled := refreshTimer == Some(Cooldown);
      refreshTimer, armed := None, false;
      if cooled {
        if disposed {
          return;
        }
        circuitOpen, consecutiveFailures, history := false, 0, history + [Cooled];
      } else {
        history := history + [Woken];
      }
      RunRefreshLoop();
    }

    method Dispose()
      modifies this
      ensures View() == OnDispose(old(View()))
    {
      disposed := true;
      if refreshInFlight {
        controllerAborted := true;
      }
      armed := false;
    }
  }
}
