// Arbitration of session refreshes. A request is an asynchronous call cut at
// its awaits: it starts, its race is won, its continuation runs, its finally
// runs; anything may happen in between.

module RefreshCoordinator {
  import opened Wrappers

  datatype Trigger = Poll | TransportEvent | Manual

  datatype Reason = Superseded | Aborted | TimedOut | NetworkError | PipelineError | BootstrapError | BadResponse

  datatype Result = Success | Failed(reason: Reason)

  // What fetchSessions and the parser will say.
  datatype Response = NotOk(reason: Reason) | ParseThrows | ParseFails(reason: Reason) | Sessions(invalid: nat)

  // Who won the race. The timeout aborts before it resolves, so the abort wins.
  datatype Outcome = AbortWon | Threw(abortError: bool) | Responded(response: Response)

  datatype Stage = Racing | Returned(result: Result) | Finished(result: Result)

  // `fetching`: its fetch was started and has not settled.
  datatype Request = Request(
    trigger: Trigger, aborted: bool, timedOut: bool, outcome: Option<Outcome>, stage: Stage,
    started: bool, fetching: bool)

  datatype Pending = Pending(trigger: Trigger, queuedFor: nat)

  datatype CallKind = OnFailure | OnSuccess | OnInvalid
  datatype Call = Call(id: nat, kind: CallKind)

  // `calls`, `waiting` and `fetches` are logs: the callbacks made, the triggers
  // answered with "superseded" that no fetch has followed yet, and how many
  // fetches were started.
  datatype Coordinator = Coordinator(
    latest: nat,
    active: Option<nat>,
    pending: Option<Pending>,
    requests: map<nat, Request>,
    calls: seq<Call>,
    waiting: seq<Trigger>,
    fetches: nat)

  const IDLE := Coordinator(0, None, None, map[], [], [], 0)

  function Coalesce(current: Option<Trigger>, next: Trigger): (t: Trigger) {
    if next == Manual then Manual
    else if current == Some(Manual) then Manual
    else if next == TransportEvent || current == Some(TransportEvent) then TransportEvent
    else Poll
  }

  predicate ShouldNotify(reason: Reason) {
    reason != Aborted && reason != Superseded
  }

  function AbortRequest(r: Request): (r': Request) {
    r.(aborted := true, outcome := if r.stage.Racing? && r.outcome.None? then Some(AbortWon) else r.outcome)
  }

  function Abort(c: Coordinator, id: Option<nat>): (c': Coordinator) {
    if id.Some? && id.value in c.requests
    then c.(requests := c.requests[id.value := AbortRequest(c.requests[id.value])]) else c
  }

  // requestSessionRefresh, up to its first await; `aborted`: the caller's
  // signal is aborted already.
  function Start(c: Coordinator, trigger: Trigger, aborted: bool): (c': Coordinator) {
    if c.active.Some? && trigger != Manual then
      var forActive :=
        if c.pending.Some? && c.pending.value.queuedFor == c.latest then Some(c.pending.value.trigger) else None;
      c.(pending := Some(Pending(Coalesce(forActive, trigger), c.latest)), waiting := c.waiting + [trigger])
    else
      var id := c.latest + 1;
      var request := if aborted
                     then Request(trigger, true, false, None, Returned(Failed(Aborted)), false, false)
                     else Request(trigger, false, false, None, Racing, true, true);
      var c1 := Abort(c, c.active);
      c1.(latest := id, active := Some(id), requests := c1.requests[id := request],
          pending := if c.pending.Some? && c.pending.value.queuedFor != id then None else c.pending,
          waiting := if aborted then c.waiting else [],
          fetches := if aborted then c.fetches else c.fetches + 1)
  }

  // What the continuation returns and which callbacks it makes.
  function Reply(r: Request, stale: bool): (reply: (Result, seq<CallKind>)) {
    if stale then (Failed(Superseded), [])
    else if r.timedOut then (Failed(TimedOut), [OnFailure])
    else
      match r.outcome
      case Some(Threw(abortError)) =>
        if r.aborted || abortError then (Failed(Aborted), []) else (Failed(NetworkError), [OnFailure])
      case Some(Responded(response)) =>
        if r.aborted then (Failed(Aborted), [])
        else (
          match response
          case NotOk(reason) => (Failed(reason), if ShouldNotify(reason) then [OnFailure] else [])
          case ParseThrows => (Failed(PipelineError), [OnFailure])
          case ParseFails(reason) => (Failed(reason), if ShouldNotify(reason) then [OnFailure] else [])
          case Sessions(invalid) => (Success, if invalid > 0 then [OnSuccess, OnInvalid] else [OnSuccess]))
      case _ => (Failed(Aborted), [])
  }

  function Tagged(id: nat, kinds: seq<CallKind>): (calls: seq<Call>)
    ensures |calls| == |kinds| && forall i :: 0 <= i < |kinds| ==> calls[i] == Call(id, kinds[i])
  {
    seq(|kinds|, i requires 0 <= i < |kinds| => Call(id, kinds[i]))
  }

  function Continue(c: Coordinator, id: nat): (c': Coordinator) {
    if id !in c.requests then c
    else
      var (result, kinds) := Reply(c.requests[id], c.latest != id);
      c.(requests := c.requests[id := c.requests[id].(stage := Returned(result))], calls := c.calls + Tagged(id, kinds))
  }

  function FinishRequest(r: Request): (r': Request) {
    r.(stage := Finished(if r.stage.Returned? then r.stage.result else Failed(Aborted)))
  }

  function Finally(c: Coordinator, id: nat): (c': Coordinator) {
    if id !in c.requests then c
    else
      var c1 := c.(requests := c.requests[id := FinishRequest(c.requests[id])],
                   active := if c.active == Some(id) then None else c.active);
      if c.latest == id && c.pending.Some? && c.pending.value.queuedFor == id
      then Start(c1.(pending := None), c.pending.value.trigger, false)
      else c1
  }

  function Settle(c: Coordinator, id: nat, o: Outcome): (c': Coordinator) {
    if id !in c.requests then c
    else
      var r := c.requests[id];
      c.(requests := c.requests[id := r.(fetching := false, outcome := if r.outcome.None? then Some(o) else r.outcome)])
  }

  function TimeOut(c: Coordinator, id: nat): (c': Coordinator) {
    if id !in c.requests then c
    else c.(requests := c.requests[id := AbortRequest(c.requests[id].(timedOut := true))])
  }

  // The effect's clean-up; nobody is left to be served.
  function Unmounted(c: Coordinator): (c': Coordinator) {
    Abort(c, c.active).(latest := c.latest + 1, pending := None, active := None, waiting := [])
  }

  datatype Event =
    | Requests(trigger: Trigger, aborted: bool)
    | CallerAborts(id: nat)
    | FetchSettles(id: nat, outcome: Outcome)
    | TimerFires(id: nat)
    | Continues(id: nat)
    | Finishes(id: nat)
    | Unmounts

  predicate Enabled(c: Coordinator, ev: Event) {
    match ev
    case CallerAborts(id) => id in c.requests && !c.requests[id].stage.Finished?
    case FetchSettles(id, outcome) => id in c.requests && c.requests[id].fetching && !outcome.AbortWon?
    case TimerFires(id) =>
      id in c.requests && !c.requests[id].stage.Finished? && c.requests[id].started && !c.requests[id].timedOut
    case Continues(id) => id in c.requests && c.requests[id].stage.Racing? && c.requests[id].outcome.Some?
    case Finishes(id) => id in c.requests && c.requests[id].stage.Returned?
    case _ => true
  }

  function Apply(c: Coordinator, ev: Event): (c': Coordinator) {
    match ev
    case Requests(trigger, aborted) => Start(c, trigger, aborted)
    case CallerAborts(id) => Abort(c, Some(id))
    case FetchSettles(id, outcome) => Settle(c, id, outcome)
    case TimerFires(id) => TimeOut(c, id)
    case Continues(id) => Continue(c, id)
    case Finishes(id) => Finally(c, id)
    case Unmounts => Unmounted(c)
  }

  predicate Possible(c: Coordinator, evs: seq<Event>)
    decreases evs
  {
    evs == [] || (Enabled(c, evs[0]) && Possible(Apply(c, evs[0]), evs[1..]))
  }

  function Run(c: Coordinator, evs: seq<Event>): (c': Coordinator)
    decreases evs
  {
    if evs == [] then c else Run(Apply(c, evs[0]), evs[1..])
  }

  // ---------------------------------------------------------- the invariants

  predicate RequestFits(r: Request) {
    && (r.outcome == Some(AbortWon) ==> r.aborted)
    && (!r.stage.Racing? && r.fetching ==> r.aborted)
    && (r.outcome.Some? && r.fetching ==> r.aborted)
    && (r.timedOut ==> r.aborted)
  }

  // The active request is the latest and unfinished; something is pending
  // only for it; all other fetches are aborted or settled.
  predicate Arbitrated(c: Coordinator) {
    && (c.active.Some? ==>
          c.active.value == c.latest && c.latest in c.requests && !c.requests[c.latest].stage.Finished?)
    && (c.pending.Some? ==> c.pending.value.queuedFor == c.latest && c.active.Some?)
    && (forall id :: id in c.requests ==>
          && id <= c.latest && RequestFits(c.requests[id])
          && (c.requests[id].fetching && !c.requests[id].aborted ==> c.active == Some(id)))
  }

  // Each request calls back at most once (a success may be followed by its
  // invalid entries), and in the order of the ids.
  predicate Follows(a: Call, b: Call) {
    a.id < b.id || (a.id == b.id && a.kind.OnSuccess? && b.kind.OnInvalid?)
  }

  predicate CallsInOrder(c: Coordinator) {
    && (forall i, j :: 0 <= i < j < |c.calls| ==> Follows(c.calls[i], c.calls[j]))
    && (forall i :: 0 <= i < |c.calls| ==> Replied(c, c.calls[i].id))
  }

  predicate Replied(c: Coordinator, id: nat) {
    id in c.requests && id <= c.latest && !c.requests[id].stage.Racing?
  }

  function Strongest(triggers: seq<Trigger>): (t: Trigger) {
    if TransportEvent in triggers then TransportEvent else Poll
  }

  // What was superseded is owed a fetch, and the pending entry says which.
  predicate Owes(c: Coordinator) {
    && (forall i :: 0 <= i < |c.waiting| ==> c.waiting[i] != Manual)
    && (c.pending.Some? <==> c.waiting != [])
    && (c.waiting != [] ==> c.pending.value.trigger == Strongest(c.waiting))
  }

  lemma StepStaysArbitrated(c: Coordinator, ev: Event)
    requires Arbitrated(c) && Enabled(c, ev)
    ensures Arbitrated(Apply(c, ev))
  {
    hide Reply;
  }

  lemma ContinueKeepsCalls(c: Coordinator, id: nat)
    requires CallsInOrder(c) && Enabled(c, Continues(id)) && id <= c.latest
    ensures CallsInOrder(Continue(c, id))
  {
    assert forall i :: 0 <= i < |c.calls| ==> Replied(c, c.calls[i].id);
  }

  lemma StepKeepsCalls(c: Coordinator, ev: Event)
    requires Arbitrated(c) && CallsInOrder(c) && Enabled(c, ev)
    ensures CallsInOrder(Apply(c, ev))
  {
    assert forall i :: 0 <= i < |c.calls| ==> Replied(c, c.calls[i].id);
    if ev.Continues? {
      ContinueKeepsCalls(c, ev.id);
    }
  }

  // The one way to lose a superseded trigger.
  predicate Loses(c: Coordinator, ev: Event) {
    ev == Requests(Manual, true) && c.waiting != []
  }

  lemma StepOwes(c: Coordinator, ev: Event)
    requires Arbitrated(c) && Owes(c) && Enabled(c, ev)
    ensures Owes(Apply(c, ev)) <==> !Loses(c, ev)
  {
    hide Reply;
  }

  // --------------------------------------------------------------- all runs

  predicate Inv(c: Coordinator) {
    Arbitrated(c) && CallsInOrder(c)
  }

  lemma {:induction false} RunKeepsInv(c: Coordinator, evs: seq<Event>)
    requires Inv(c) && Possible(c, evs)
    ensures Inv(Run(c, evs))
    decreases evs
  {
    hide Arbitrated, CallsInOrder, Enabled, Apply;
    if evs != [] {
      StepStaysArbitrated(c, evs[0]);
      StepKeepsCalls(c, evs[0]);
      RunKeepsInv(Apply(c, evs[0]), evs[1..]);
    }
  }

  predicate Reachable(evs: seq<Event>, c: Coordinator) {
    Possible(IDLE, evs) && Run(IDLE, evs) == c
  }

  lemma ReachableInv(evs: seq<Event>, c: Coordinator)
    requires Reachable(evs, c)
    ensures Inv(c)
  {
    RunKeepsInv(IDLE, evs);
  }

  // The step behind the next two.
  lemma OnlyTheLatestCalls(c: Coordinator, ev: Event)
    ensures |c.calls| <= |Apply(c, ev).calls| && Apply(c, ev).calls[..|c.calls|] == c.calls
    ensures forall i :: |c.calls| <= i < |Apply(c, ev).calls| ==> Apply(c, ev).calls[i].id == c.latest
  {
  }

  lemma LatestGrows(c: Coordinator, ev: Event)
    ensures c.latest <= Apply(c, ev).latest
  {
  }

  // Once a newer request exists, or its owner is gone, a request makes no
  // callback in any continuation.
  lemma {:induction false} SupersededIsSilent(c: Coordinator, evs: seq<Event>)
    ensures var c' := Run(c, evs);
      && c.latest <= c'.latest && |c.calls| <= |c'.calls| && c'.calls[..|c.calls|] == c.calls
      && forall i :: |c.calls| <= i < |c'.calls| ==> c'.calls[i].id >= c.latest
    decreases evs
  {
    hide Apply;
    if evs != [] {
      var c1, c' := Apply(c, evs[0]), Run(c, evs);
      LatestGrows(c, evs[0]);
      OnlyTheLatestCalls(c, evs[0]);
      SupersededIsSilent(c1, evs[1..]);
      assert c'.calls[..|c.calls|] == c'.calls[..|c1.calls|][..|c.calls|];
      forall i | |c.calls| <= i < |c'.calls| ensures c'.calls[i].id >= c.latest {
        assert i < |c1.calls| ==> c'.calls[i] == c'.calls[..|c1.calls|][i];
      }
    }
  }

  // Results are published in the order of the requests, each at most once.
  lemma PublishedIdsIncrease(evs: seq<Event>, c: Coordinator, i: nat, j: nat)
    requires Reachable(evs, c) && i < j < |c.calls|
    ensures c.calls[i].kind.OnSuccess? && c.calls[j].kind.OnSuccess? ==> c.calls[i].id < c.calls[j].id
    ensures c.calls[i].kind.OnFailure? || c.calls[j].kind.OnFailure? ==> c.calls[i].id < c.calls[j].id
  {
    ReachableInv(evs, c);
    assert Follows(c.calls[i], c.calls[j]);
  }

  lemma AtMostOneLiveFetch(evs: seq<Event>, c: Coordinator, a: nat, b: nat)
    requires Reachable(evs, c) && a in c.requests && b in c.requests
    requires c.requests[a].fetching && !c.requests[a].aborted && c.requests[b].fetching && !c.requests[b].aborted
    ensures a == b == c.latest
  {
    ReachableInv(evs, c);
  }

  lemma PendingOnlyWhileActive(evs: seq<Event>, c: Coordinator)
    requires Reachable(evs, c) && c.pending.Some?
    ensures c.active == Some(c.latest) && c.pending.value.queuedFor == c.latest
    ensures c.latest in c.requests && !c.requests[c.latest].stage.Finished?
  {
    ReachableInv(evs, c);
  }

  // ------------------------------------------- what is returned and called back

  // The event that decides the race of a request is the first of: its fetch
  // settles, or it is aborted, which is also what its timeout does.
  lemma FirstDecides(c: Coordinator, ev: Event, id: nat)
    requires Arbitrated(c) && Enabled(c, ev) && id in c.requests && c.requests[id].stage.Racing?
    ensures var r := c.requests[id];
      id in Apply(c, ev).requests && (
      var r' := Apply(c, ev).requests[id];
      && (r.outcome.Some? ==> r'.outcome == r.outcome)
      && (ev.FetchSettles? && ev.id == id ==> !r'.fetching && (r.outcome.None? ==> r'.outcome == Some(ev.outcome)))
      && (ev == CallerAborts(id) || ev == TimerFires(id) ==>
            r'.aborted && (r.outcome.None? ==> r'.outcome == Some(AbortWon)))
      && (ev == TimerFires(id) ==> r'.timedOut)
      && (r'.outcome.Some? && r'.stage.Racing? ==> Enabled(Apply(c, ev), Continues(id))))
  {
    hide Reply;
  }

  // What the continuation of a decided request returns and whom it tells, case
  // by case, the first that applies.
  lemma ContinuationAnswers(c: Coordinator, id: nat)
    requires Enabled(c, Continues(id))
    ensures var r, c' := c.requests[id], Apply(c, Continues(id));
      var result, told := c'.requests[id].stage, c'.calls[|c.calls|..];
      && c'.calls == c.calls + told
      && (if id != c.latest then result == Returned(Failed(Superseded)) && told == []
          else if r.timedOut then result == Returned(Failed(TimedOut)) && told == [Call(id, OnFailure)]
          else if r.aborted || r.outcome.value == AbortWon || r.outcome.value == Threw(true) then
            result == Returned(Failed(Aborted)) && told == []
          else if r.outcome.value == Threw(false) then
            result == Returned(Failed(NetworkError)) && told == [Call(id, OnFailure)]
          else
            match r.outcome.value.response
            case Sessions(n) =>
              result == Returned(Success)
              && told == [Call(id, OnSuccess)] + (if n > 0 then [Call(id, OnInvalid)] else [])
            case ParseThrows => result == Returned(Failed(PipelineError)) && told == [Call(id, OnFailure)]
            case NotOk(reason) =>
              result == Returned(Failed(reason))
              && told == if reason == Aborted || reason == Superseded then [] else [Call(id, OnFailure)]
            case ParseFails(reason) =>
              result == Returned(Failed(reason))
              && told == if reason == Aborted || reason == Superseded then [] else [Call(id, OnFailure)])
  {
  }

  // What a request has returned, if it has.
  function ResultOf(r: Request): (result: Option<Result>) {
    if r.stage.Racing? then None else Some(r.stage.result)
  }

  predicate ToldAsReturned(c: Coordinator, id: nat)
    requires id in c.requests
  {
    var result := ResultOf(c.requests[id]);
    && (Call(id, OnSuccess) in c.calls <==> result == Some(Success))
    && (Call(id, OnInvalid) in c.calls ==> result == Some(Success))
    && (Call(id, OnFailure) in c.calls <==>
          result.Some? && result.value.Failed? && result.value.reason != Aborted && result.value.reason != Superseded)
  }

  ghost predicate AllTold(c: Coordinator) {
    && (forall id :: id in c.requests ==> ToldAsReturned(c, id))
    && (forall id, kind :: Call(id, kind) in c.calls ==> id in c.requests)
  }

  lemma ContinueTells(c: Coordinator, id: nat)
    requires AllTold(c) && Enabled(c, Continues(id))
    ensures AllTold(Continue(c, id))
  {
    var c', kinds := Continue(c, id), Reply(c.requests[id], c.latest != id).1;
    assert ToldAsReturned(c, id);
    forall x, kind ensures Call(x, kind) in c'.calls <==> Call(x, kind) in c.calls || (x == id && kind in kinds) {
      InBoth(c.calls, Tagged(id, kinds), Call(x, kind));
      TaggedIn(id, kinds, x, kind);
    }
    forall x | x in c'.requests ensures ToldAsReturned(c', x) {
      assert x != id ==> ToldAsReturned(c, x);
    }
  }

  lemma InBoth(a: seq<Call>, b: seq<Call>, x: Call)
    ensures x in a + b <==> x in a || x in b
  {
  }

  lemma TaggedIn(id: nat, kinds: seq<CallKind>, x: nat, kind: CallKind)
    ensures Call(x, kind) in Tagged(id, kinds) <==> x == id && kind in kinds
  {
    if x == id && kind in kinds {
      var i :| 0 <= i < |kinds| && kinds[i] == kind;
      assert Tagged(id, kinds)[i] == Call(x, kind);
    }
  }

  lemma OtherTells(c: Coordinator, ev: Event)
    requires Arbitrated(c) && AllTold(c) && Enabled(c, ev) && !ev.Continues?
    ensures AllTold(Apply(c, ev))
  {
    hide Reply, Coalesce;
    var c' := Apply(c, ev);
    assert c'.calls == c.calls;
    forall id | id in c'.requests ensures ToldAsReturned(c', id) {
      if id in c.requests {
        assert ToldAsReturned(c, id);
        assert ResultOf(c'.requests[id]) == ResultOf(c.requests[id]);
      } else {
        assert forall kind :: Call(id, kind) !in c.calls;
      }
    }
  }

  lemma {:induction false} RunTells(c: Coordinator, evs: seq<Event>)
    requires Arbitrated(c) && AllTold(c) && Possible(c, evs)
    ensures AllTold(Run(c, evs))
    decreases evs
  {
    hide Arbitrated, AllTold, Enabled, Apply;
    if evs != [] {
      StepStaysArbitrated(c, evs[0]);
      if evs[0].Continues? {
        ContinueTells(c, evs[0].id) by { ContinuesApplies(c, evs[0]); }
        ContinuesApplies(c, evs[0]);
      } else {
        OtherTells(c, evs[0]);
      }
      RunTells(Apply(c, evs[0]), evs[1..]);
    }
  }

  lemma ContinuesApplies(c: Coordinator, ev: Event)
    requires ev.Continues?
    ensures Apply(c, ev) == Continue(c, ev.id) && ev == Continues(ev.id)
  {
  }

  // In every run the callbacks made are those that the results call for: a
  // request told of success exactly if it returned success, and of a failure
  // exactly if it failed and was neither aborted nor superseded.
  lemma CallbacksMatchResults(evs: seq<Event>, c: Coordinator, id: nat)
    requires Reachable(evs, c)
    ensures Call(id, OnSuccess) in c.calls <==> id in c.requests && ResultOf(c.requests[id]) == Some(Success)
    ensures Call(id, OnFailure) in c.calls <==>
      id in c.requests && exists reason | reason != Aborted && reason != Superseded ::
        ResultOf(c.requests[id]) == Some(Failed(reason))
  {
    hide Arbitrated;
    ReachableInv(evs, c);
    RunTells(IDLE, evs) by { assert Arbitrated(IDLE) by { IdleArbitrated(); } }
    if id in c.requests {
      assert ToldAsReturned(c, id);
    }
  }

  lemma IdleArbitrated()
    ensures Arbitrated(IDLE)
  {
  }

  // A request starts a fetch of its own at once, unless it is queued behind an
  // active one or its caller has aborted it; a manual one is never queued.
  lemma RequestIsTaken(c: Coordinator, trigger: Trigger, aborted: bool)
    ensures var c' := Apply(c, Requests(trigger, aborted));
      if c.active.Some? && trigger != Manual then
        && c' == c.(pending := c'.pending, waiting := c.waiting + [trigger]) && c'.pending.Some?
      else
        && c'.latest == c.latest + 1 && c'.active == Some(c'.latest) && c'.latest in c'.requests
        && c'.requests[c'.latest].trigger == trigger
        && (if aborted then
              c'.fetches == c.fetches && c'.requests[c'.latest].stage == Returned(Failed(Aborted))
            else
              c'.fetches == c.fetches + 1
              && c'.requests[c'.latest] == Request(trigger, false, false, None, Racing, true, true))
  {
  }

  // ------------------------------------------------------ no trigger is lost

  // No manual request whose signal is already aborted comes while something
  // waits, and nobody unmounts.
  predicate Keeping(c: Coordinator, evs: seq<Event>)
    decreases evs
  {
    evs == [] || (!Loses(c, evs[0]) && !evs[0].Unmounts? && Keeping(Apply(c, evs[0]), evs[1..]))
  }

  predicate LosesNone(c: Coordinator, evs: seq<Event>)
    decreases evs
  {
    evs == [] || (!Loses(c, evs[0]) && LosesNone(Apply(c, evs[0]), evs[1..]))
  }

  lemma {:induction false} RunOwes(c: Coordinator, evs: seq<Event>)
    requires Arbitrated(c) && Owes(c) && Possible(c, evs) && LosesNone(c, evs)
    ensures Owes(Run(c, evs))
    decreases evs
  {
    hide Arbitrated, Owes, Enabled, Apply, Loses;
    if evs != [] {
      StepStaysArbitrated(c, evs[0]);
      StepOwes(c, evs[0]);
      RunOwes(Apply(c, evs[0]), evs[1..]);
    }
  }

  // While it waits, a trigger stays queued behind the same request, until a
  // fetch is started.
  lemma WaitsOrIsServed(c: Coordinator, ev: Event)
    requires Arbitrated(c) && Owes(c) && Enabled(c, ev) && c.waiting != [] && !Loses(c, ev) && !ev.Unmounts?
    ensures var c' := Apply(c, ev);
      || c'.fetches > c.fetches
      || (c'.fetches == c.fetches && c'.latest == c.latest && c.waiting <= c'.waiting)
  {
    hide Reply;
  }

  // Once the request that superseded a trigger is finished, a later fetch has
  // been started.
  lemma {:induction false} SupersededIsServed(c: Coordinator, evs: seq<Event>)
    requires Arbitrated(c) && Owes(c) && Possible(c, evs) && Keeping(c, evs) && c.waiting != []
    ensures var c' := Run(c, evs);
      && c'.fetches >= c.fetches
      && (c.latest in c'.requests && c'.requests[c.latest].stage.Finished? ==> c'.fetches > c.fetches)
    decreases evs
  {
    if evs != [] {
      var c1 := Apply(c, evs[0]);
      StepStaysArbitrated(c, evs[0]);
      StepOwes(c, evs[0]);
      WaitsOrIsServed(c, evs[0]);
      if c1.fetches == c.fetches {
        SupersededIsServed(c1, evs[1..]);
      } else {
        FetchesGrow(c1, evs[1..]);
      }
    }
  }

  // So it is in every run from the start in which none was lost.
  lemma EveryTriggerIsServed(evs: seq<Event>, c: Coordinator, more: seq<Event>)
    requires Reachable(evs, c) && LosesNone(IDLE, evs) && c.waiting != []
    requires Possible(c, more) && Keeping(c, more)
    ensures var c' := Run(c, more);
      && c.active == Some(c.latest) && c.pending == Some(Pending(Strongest(c.waiting), c.latest))
      && (c.latest in c'.requests && c'.requests[c.latest].stage.Finished? ==> c'.fetches > c.fetches)
  {
    hide Keeping, Enabled, Apply;
    ReachableInv(evs, c);
    RunOwes(IDLE, evs);
    SupersededIsServed(c, more);
  }

  lemma {:induction false} FetchesGrow(c: Coordinator, evs: seq<Event>)
    ensures Run(c, evs).fetches >= c.fetches
    decreases evs
  {
    if evs != [] {
      FetchesGrow(Apply(c, evs[0]), evs[1..]);
    }
  }

  // The finally of the active request starts that fetch, with the strongest
  // of the waiting triggers, and settles the debt.
  lemma FinallyServes(c: Coordinator)
    requires Arbitrated(c) && Owes(c) && c.waiting != [] && Enabled(c, Finishes(c.latest))
    ensures var c' := Finally(c, c.latest);
      && c'.latest == c.latest + 1 && c'.latest in c'.requests
      && c'.requests[c'.latest] == Request(Strongest(c.waiting), false, false, None, Racing, true, true)
      && c'.waiting == [] && c'.pending.None?
  {
  }

  // A manual request whose signal is aborted before the call drops the pending
  // trigger: when all requests are finished, no fetch has followed it.
  const LOSING := [Requests(Poll, false)] + [Requests(TransportEvent, false)] + [Requests(Manual, true)]
  const FINISHING := [Continues(1)] + [Finishes(1)] + [Finishes(2)]

  function Lost(): (c: Coordinator) {
    Coordinator(2, Some(2), None,
                map[1 := Request(Poll, true, false, Some(AbortWon), Racing, true, true),
                    2 := Request(Manual, true, false, None, Returned(Failed(Aborted)), false, false)],
                [], [TransportEvent], 1)
  }

  lemma AbortedManualLosesTrigger()
    ensures Reachable(LOSING + FINISHING, Run(IDLE, LOSING + FINISHING))
    ensures var c := Run(IDLE, LOSING + FINISHING);
      && c.fetches == 1 && c.waiting == [TransportEvent] && c.pending.None? && c.active.None?
      && forall id :: id in c.requests ==> c.requests[id].stage.Finished?
  {
    LosingRun();
    FinishingRun();
    RunOfTwo(IDLE, LOSING, FINISHING);
  }

  lemma OneStep(c: Coordinator, e: Event)
    requires Enabled(c, e)
    ensures Possible(c, [e]) && Run(c, [e]) == Apply(c, e)
  {
    assert [e][1..] == [];
  }

  lemma LosingRun()
    ensures Possible(IDLE, LOSING) && Run(IDLE, LOSING) == Lost()
  {
    var e1, e2, e3 := Requests(Poll, false), Requests(TransportEvent, false), Requests(Manual, true);
    var c1 := Apply(IDLE, e1);
    var c2 := Apply(c1, e2);
    assert Apply(c2, e3) == Lost();
    OneStep(IDLE, e1);
    OneStep(c1, e2);
    OneStep(c2, e3);
    RunOfTwo(IDLE, [e1], [e2]);
    RunOfTwo(IDLE, [e1] + [e2], [e3]);
  }

  lemma FinishingRun()
    ensures Possible(Lost(), FINISHING)
    ensures var c := Run(Lost(), FINISHING);
      && c.fetches == 1 && c.waiting == [TransportEvent] && c.pending.None? && c.active.None?
      && forall id :: id in c.requests ==> c.requests[id].stage.Finished?
  {
    var e1, e2, e3 := Continues(1), Finishes(1), Finishes(2);
    var c1 := Apply(Lost(), e1);
    var c2 := Apply(c1, e2);
    OneStep(Lost(), e1);
    OneStep(c1, e2);
    OneStep(c2, e3);
    RunOfTwo(Lost(), [e1], [e2]);
    RunOfTwo(Lost(), [e1] + [e2], [e3]);
  }

  lemma {:induction false} RunOfTwo(c: Coordinator, a: seq<Event>, b: seq<Event>)
    requires Possible(c, a) && Possible(Run(c, a), b)
    ensures Possible(c, a + b) && Run(c, a + b) == Run(Run(c, a), b)
    decreases a
  {
    hide Apply, Enabled;
    if a == [] {
      assert a + b == b;
    } else {
      assert (a + b)[0] == a[0] && (a + b)[1..] == a[1..] + b;
      RunOfTwo(Apply(c, a[0]), a[1..], b);
    }
  }

  // -------------------------------------------------------------- the object

  // The refs of the hook. A controller is named by the id of its request.
  class SessionRefreshCoordinator {
    var latestRefreshRequestId: nat
    var activeRefreshController: Option<nat>
    var pendingRefresh: Option<Pending>
    var requests: map<nat, Request>
    ghost var calls: seq<Call>
    ghost var waiting: seq<Trigger>
    ghost var fetches: nat

    ghost function View(): (c: Coordinator)
      reads this
    {
      Coordinator(latestRefreshRequestId, activeRefreshController, pendingRefresh, requests, calls, waiting, fetches)
    }

    constructor ()
      ensures View() == IDLE
    {
      latestRefreshRequestId, activeRefreshController, pendingRefresh, requests := 0, None, None, map[];
      calls, waiting, fetches := [], [], 0;
    }

    method AbortController(id: nat)
      modifies this`requests
      ensures View() == Abort(old(View()), Some(id))
    {
      if id in requests {
        var r := requests[id];
        if r.stage.Racing? && r.outcome.None? {
          r := r.(outcome := Some(AbortWon));
        }
        requests := requests[id := r.(aborted := true)];
      }
    }

    method RequestSessionRefresh(trigger: Trigger, signalAborted: bool)
      modifies this
      ensures View() == Start(old(View()), trigger, signalAborted)
    {
      var previous := activeRefreshController;
      if previous.Some? && trigger != Manual {
        var activeRequestId := latestRefreshRequestId;
        var forActive := None;
        if pendingRefresh.Some? && pendingRefresh.value.queuedFor == activeRequestId {
          forActive := Some(pendingRefresh.value.trigger);
        }
        pendingRefresh := Some(Pending(Coalesce(forActive, trigger), activeRequestId));
        waiting := waiting + [trigger];
        return;
      }
      latestRefreshRequestId := latestRefreshRequestId + 1;
      var requestId := latestRefreshRequestId;
      if pendingRefresh.Some? && pendingRefresh.value.queuedFor != requestId {
        pendingRefresh := None;
      }
      if previous.Some? {
        AbortController(previous.value);
      }
      activeRefreshController := Some(requestId);
      if signalAborted {
        requests := requests[requestId := Request(trigger, true, false, None, Returned(Failed(Aborted)), false, false)];
      } else {
        requests := requests[requestId := Request(trigger, false, false, None, Racing, true, true)];
        waiting, fetches := [], fetches + 1;
      }
    }

    // The timeout's callback.
    method OnTimeout(id: nat)
      requires id in requests
      modifies this`requests
      ensures View() == TimeOut(old(View()), id)
    {
      requests := requests[id := requests[id].(timedOut := true)];
      AbortController(id);
    }

    method ContinueRefresh(id: nat) returns (result: Result, made: seq<CallKind>)
      requires id in requests
      modifies this`requests, this`calls
      ensures View() == Continue(old(View()), id)
      ensures made == Reply(old(requests)[id], old(latestRefreshRequestId) != id).1
    {
      var r := requests[id];
      var stale := latestRefreshRequestId != id;
      made := [];
      if stale {
        result := Failed(Superseded);
      } else if r.timedOut {
        result, made := Failed(TimedOut), [OnFailure];
      } else if r.outcome.Some? && r.outcome.value.Threw? {
        if r.aborted || r.outcome.value.abortError {
          result := Failed(Aborted);
        } else {
          result, made := Failed(NetworkError), [OnFailure];
        }
      } else if r.aborted || r.outcome.None? || r.outcome.value.AbortWon? {
        result := Failed(Aborted);
      } else {
        var response := r.outcome.value.response;
        match response
        case NotOk(reason) =>
          result := Failed(reason);
          made := if ShouldNotify(reason) then [OnFailure] else [];
        case ParseThrows =>
          result, made := Failed(PipelineError), [OnFailure];
        case ParseFails(reason) =>
          result := Failed(reason);
          made := if ShouldNotify(reason) then [OnFailure] else [];
        case Sessions(invalid) =>
          result, made := Success, [OnSuccess];
          if invalid > 0 {
            made := made + [OnInvalid];
          }
      }
      requests := requests[id := r.(stage := Returned(result))];
      calls := calls + Tagged(id, made);
    }

    method FinishRefresh(id: nat)
      requires id in requests
      modifies this
      ensures View() == Finally(old(View()), id)
    {
      requests := requests[id := FinishRequest(requests[id])];
      if activeRefreshController == Some(id) {
        activeRefreshController := None;
      }
      if latestRefreshRequestId == id && pendingRefresh.Some? && pendingRefresh.value.queuedFor == id {
        var trigger := pendingRefresh.value.trigger;
        pendingRefresh := None;
        RequestSessionRefresh(trigger, false);
      }
    }

    method Unmount()
      modifies this
      ensures View() == Unmounted(old(View()))
    {
      latestRefreshRequestId := latestRefreshRequestId + 1;
      pendingRefresh := None;
      if activeRefreshController.Some? {
        AbortController(activeRefreshController.value);
        activeRefreshController := None;
      }
      waiting := [];
    }
  }
}
