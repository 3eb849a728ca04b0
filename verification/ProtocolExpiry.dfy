// How long an exited session stays: its cleanup callback is due until it runs,
// exactly as long as nobody tries to attach.

module ProtocolExpiry {
  import opened Wrappers
  import Utf8
  import History
  import opened SessionTable
  import opened Protocol
  import ProtocolShape
  import opened ProtocolCleanup
  import opened ProtocolTheorems

  // An exited session in the map, with the callback that will remove it.
  predicate Expiring(t: Table, sid: SessionId) {
    Has(t, sid) && t.heap[sid].exit.Some? && Pending(t, sid)
  }

  // It is gone, or that callback is still to come.
  predicate Due(t: Table, sid: SessionId) {
    sid !in t.live || Expiring(t, sid)
  }

  predicate Attempts(e: Event, sid: SessionId) {
    e.AttachOld? && e.sid == sid
  }

  lemma PendingAfterQuietStep(cfg: Config, s: State, e: Event, sid: SessionId)
    requires Enabled(s, e) && LeavesTimersAlone(e) && Expiring(s.table, sid)
    ensures Due(Apply(cfg, s, e).table, sid)
  {
    hide Apply, Enabled;
    QuietStep(cfg, s, e, sid);
  }

  lemma ScheduledIsExpiring(t: Table, sid: SessionId, delayMs: int)
    requires Has(t, sid) && t.heap[sid].exit.Some?
    ensures Expiring(Schedule(t, sid, delayMs), sid)
  {
  }

  lemma DetachedIsExpiring(t: Table, ttlMs: int, sid: SessionId, conn: ConnId)
    requires Has(t, sid) && t.heap[sid].exit.Some?
    ensures Expiring(Detach(t, ttlMs, sid, conn), sid)
  {
    hide Schedule;
    ScheduledIsExpiring(StopTimer(Put(t, sid, Forget(t.heap[sid], conn)), sid), sid, 1);
  }

  lemma IsolatedStaysExpiring(t: Table, t': Table, x: SessionId, sid: SessionId)
    requires Isolated(t, t', x, sid) && x != sid && t'.live == t.live && Expiring(t, sid)
    ensures Expiring(t', sid)
  {
  }

  lemma AttemptedIsNotDue(t: Table, max: nat, sid: SessionId, conn: ConnId, watch: bool)
    requires Has(t, sid) && !t.closed
    ensures !Due(AttachExisting(t, max, sid, conn, watch).0, sid)
  {
    hide StopTimer, Utf8.Concat, History.Replay;
  }

  lemma LiveUnderTableStep(t: Table, ttlMs: int, max: nat, x: SessionId, conn: ConnId, watch: bool, delayMs: int)
    ensures AttachExisting(t, max, x, conn, watch).0.live == t.live
    ensures Detach(t, ttlMs, x, conn).live == Schedule(t, x, delayMs).live == StopFrozenTimer(t, x).live == t.live
  {
    hide Utf8.Concat, History.Replay;
  }

  lemma CallbackLeavesDue(t: Table, key: TimerKey, sid: SessionId)
    requires Expiring(t, sid)
    ensures Due(Cleanup(t, key), sid)
  {
  }

  lemma ElsewhereStaysDue(cfg: Config, s: State, e: Event, sid: SessionId)
    requires Enabled(s, e) && !LeavesTimersAlone(e) && !Attempts(e, sid) && Expiring(s.table, sid)
    ensures Due(Apply(cfg, s, e).table, sid)
  {
    hide StopTimer, BeginAttach, Schedule, Detach, AttachExisting, Cleanup, StopFrozenTimer, Pending;
    hide ForwarderLocks, ForwarderClients, IsCollection, Isolated;
    match e
    case AttachOld(c, x, watch) =>
      LiveUnderTableStep(s.table, cfg.ttlMs, cfg.max, x, c, watch, 1);
      AttachIsIsolated(s.table, cfg.max, x, c, watch, sid);
      IsolatedStaysExpiring(s.table, Apply(cfg, s, e).table, x, sid);
    case DetachClient(c) =>
      var x := s.clients[c].att.value.sid;
      if x == sid {
        DetachedIsExpiring(s.table, cfg.ttlMs, sid, c);
      } else {
        LiveUnderTableStep(s.table, cfg.ttlMs, cfg.max, x, c, false, 1);
        DetachIsIsolated(s.table, cfg.ttlMs, x, c, sid);
        IsolatedStaysExpiring(s.table, Apply(cfg, s, e).table, x, sid);
      }
    case ForwarderStep(x, _) =>
      if x == sid {
        ScheduledIsExpiring(s.table, sid, 1);
      } else {
        LiveUnderTableStep(s.table, cfg.ttlMs, cfg.max, x, 0, false, 1);
        ScheduleIsIsolated(s.table, x, 1, sid);
        IsolatedStaysExpiring(s.table, Apply(cfg, s, e).table, x, sid);
      }
    case TimerRuns(key) => CallbackLeavesDue(s.table, key, sid);
    case ReapStop(x) =>
      LiveUnderTableStep(s.table, cfg.ttlMs, cfg.max, x, 0, false, 1);
      ReapIsIsolated(s.table, x, sid);
      IsolatedStaysExpiring(s.table, Apply(cfg, s, e).table, x, sid);
  }

  lemma DueAfterStep(cfg: Config, s: State, e: Event, sid: SessionId)
    requires Inv(cfg, s) && Enabled(s, e) && Expiring(s.table, sid)
    ensures Due(Apply(cfg, s, e).table, sid) <==> !Attempts(e, sid)
  {
    assert !s.table.closed;
    hide Inv;
    if Attempts(e, sid) {
      hide AttachExisting, Due;
      AttemptedIsNotDue(s.table, cfg.max, sid, e.c, e.watch);
    } else {
      hide Apply, Enabled, Expiring, Due;
      if LeavesTimersAlone(e) {
        PendingAfterQuietStep(cfg, s, e, sid);
      } else {
        ElsewhereStaysDue(cfg, s, e, sid);
      }
    }
  }

  // One step takes the callback away from an exited session that stays in the
  // map if and only if it is an attach attempt on it, accepted or rejected.
  lemma OnlyAttemptsCancel(cfg: Config, s: State, e: Event, sid: SessionId)
    requires Reachable(cfg, s) && Enabled(s, e)
    requires Has(s.table, sid) && s.table.heap[sid].exit.Some? && Pending(s.table, sid)
    ensures var t := Apply(cfg, s, e).table;
      sid !in t.live || Pending(t, sid) <==> !(e.AttachOld? && e.sid == sid)
  {
    hide Inv, Apply, Enabled, Pending;
    ReachableInv(cfg, s);
    DueAfterStep(cfg, s, e, sid);
    if Attempts(e, sid) {
      AttemptStaysExited(cfg, s, e, sid);
    }
  }

  lemma AttemptStaysExited(cfg: Config, s: State, e: Event, sid: SessionId)
    requires Enabled(s, e) && Attempts(e, sid) && Has(s.table, sid) && s.table.heap[sid].exit.Some?
    ensures Has(Apply(cfg, s, e).table, sid) && Apply(cfg, s, e).table.heap[sid].exit.Some?
  {
    hide StopTimer, Utf8.Concat, History.Replay;
  }

  // A rejected attempt leaves no callback at all that could remove the session,
  // and its socket does not attach.
  lemma RejectedAttachCancelsCleanup(cfg: Config, s: State, c: ConnId, sid: SessionId)
    requires Reachable(cfg, s) && Enabled(s, AttachOld(c, sid, false)) && Expiring(s.table, sid)
    requires s.table.heap[sid].controller.Some? && s.table.heap[sid].controller.value.conn != c
    ensures var s' := Apply(cfg, s, AttachOld(c, sid, false));
      && s'.clients == s.clients && Has(s'.table, sid)
      && forall key :: key in s'.table.timers && key.sid == sid ==> !Removes(s'.table, key)
  {
    var s' := Apply(cfg, s, AttachOld(c, sid, false));
    ReachableInv(cfg, s);
    assert !s.table.closed;
    hide Inv, Reachable;
    forall key | key in s'.table.timers && key.sid == sid ensures !Removes(s'.table, key) {
      TimersOf(cfg, s, key);
    }
  }

  // ------------------------------------------------------------- over runs

  // Gone or about to go in every state of the run.
  ghost predicate AlwaysDue(cfg: Config, s: State, es: seq<Event>, sid: SessionId)
    decreases |es|
  {
    && Due(s.table, sid)
    && (es == [] || (Enabled(s, es[0]) ==> AlwaysDue(cfg, Apply(cfg, s, es[0]), es[1..], sid)))
  }

  // Nobody tries to attach to it while it is in the map.
  ghost predicate Undisturbed(cfg: Config, s: State, es: seq<Event>, sid: SessionId)
    decreases |es|
  {
    es == [] ||
    (&& !(Attempts(es[0], sid) && sid in s.table.live)
     && (Enabled(s, es[0]) ==> Undisturbed(cfg, Apply(cfg, s, es[0]), es[1..], sid)))
  }

  lemma {:induction false} GoneStaysGone(cfg: Config, s: State, es: seq<Event>, s': State, sid: SessionId)
    requires Run(cfg, s, es, s') && sid in s.table.heap && sid !in s.table.live
    ensures AlwaysDue(cfg, s, es, sid) && Undisturbed(cfg, s, es, sid) && sid !in s'.table.live
    decreases |es|
  {
    hide Apply, Enabled, Expiring;
    if es != [] {
      FrozenStep(cfg, s, es[0], sid);
      GoneStaysGone(cfg, Apply(cfg, s, es[0]), es[1..], s', sid);
    }
  }

  lemma {:induction false} DueAlongRun(cfg: Config, s: State, es: seq<Event>, s': State, sid: SessionId)
    requires Inv(cfg, s) && Run(cfg, s, es, s') && Expiring(s.table, sid)
    ensures AlwaysDue(cfg, s, es, sid) <==> Undisturbed(cfg, s, es, sid)
    ensures Undisturbed(cfg, s, es, sid) ==> Due(s'.table, sid)
    decreases |es|
  {
    assert sid in s.table.live && sid in s.table.heap;
    hide Apply, Enabled, Inv, Expiring, Pending;
    if es != [] {
      var s1 := Apply(cfg, s, es[0]);
      InvStep(cfg, s, es[0]);
      DueAfterStep(cfg, s, es[0], sid);
      if sid !in s1.table.live {
        HeapStays(cfg, s, es[0], sid);
        GoneStaysGone(cfg, s1, es[1..], s', sid);
      } else if Expiring(s1.table, sid) {
        DueAlongRun(cfg, s1, es[1..], s', sid);
      }
    }
  }

  lemma HeapStays(cfg: Config, s: State, e: Event, sid: SessionId)
    requires Enabled(s, e) && sid in s.table.heap
    ensures sid in Apply(cfg, s, e).table.heap
  {
    hide Apply, Enabled;
    ProtocolShape.TableGrows(cfg, s, e, sid);
  }

  // An exited session that waits for its callback is, all along a run, gone or
  // still waiting if and only if nobody tries to attach to it meanwhile.
  lemma ExitedIsDueExactlyUndisturbed(cfg: Config, s: State, es: seq<Event>, s': State, sid: SessionId)
    requires Reachable(cfg, s) && Run(cfg, s, es, s') && Expiring(s.table, sid)
    ensures AlwaysDue(cfg, s, es, sid) <==> Undisturbed(cfg, s, es, sid)
    ensures Undisturbed(cfg, s, es, sid) ==> Due(s'.table, sid)
  {
    hide Inv, Run;
    ReachableInv(cfg, s);
    DueAlongRun(cfg, s, es, s', sid);
  }

  // And the callback it waits for removes it when it runs.
  lemma CallbackEndsIt(cfg: Config, s: State, sid: SessionId)
    requires Expiring(s.table, sid)
    ensures var key := TimerKey(sid, s.table.heap[sid].generation);
      && key in s.table.timers
      && (Enabled(s, TimerRuns(key)) ==> sid !in Apply(cfg, s, TimerRuns(key)).table.live)
      && (Enabled(s, TimerRuns(key)) || Enabled(s, TimerFires(key)))
  {
  }

  // --------------------------------------------------------- the failing run

  lemma {:induction false} RunJoin(cfg: Config, s: State, a: seq<Event>, t: State, b: seq<Event>, u: State)
    requires Run(cfg, s, a, t) && Run(cfg, t, b, u)
    ensures Run(cfg, s, a + b, u)
    decreases |a|
  {
    hide Apply, Enabled;
    if a == [] {
      assert a + b == b;
    } else {
      assert (a + b)[0] == a[0] && (a + b)[1..] == a[1..] + b;
      RunJoin(cfg, Apply(cfg, s, a[0]), a[1..], t, b, u);
    }
  }

  lemma OneStep(cfg: Config, s: State, e: Event)
    requires Enabled(s, e)
    ensures Run(cfg, s, [e], Apply(cfg, s, e))
  {
    assert Run(cfg, Apply(cfg, s, e), [], Apply(cfg, s, e));
  }

  const SHELL: SessionId := 0
  const OWNER: Ref := Ref(0, 0)
  const HELD := Attachment(SHELL, OWNER, false, 0, [])
  const READY := Ready(SHELL, false)

  // A session of one controlling socket, at the point its forwarder is at.
  function Scene(exit: Option<ExitInfo>, wire: seq<Msg>, phase: Phase, f: Forwarder, locks: map<nat, Owner>)
    : (s: State)
  {
    State(Table(false, map[SHELL := Session([], Some(OWNER), map[], None, 0, exit, "", 0)], {SHELL}, map[], 1),
          map[0 := Client(phase, true, wire, Some(HELD))], map[SHELL := f], locks, [])
  }

  function Attached(): (s: State) {
    Scene(None, [READY], Reading, Unstarted, map[])
  }

  function Exited(info: ExitInfo): (s: State) {
    Scene(Some(info), [READY], Reading, Sending(Exit(info), [OWNER], false), map[])
  }

  function Announced(info: ExitInfo): (s: State) {
    Scene(Some(info), [READY, Exit(info)], Reading, Scheduling, map[])
  }

  function Attaching(): (es: seq<Event>) {
    [Connect(0)] + [AttachFresh(0, SHELL, true)] + [ClientStep(0, ReplayWrite(true))]
  }

  function Exiting(info: ExitInfo): (es: seq<Event>) {
    [ForwarderStep(SHELL, Begin)] + [ForwarderStep(SHELL, DataClosed)]
    + [ForwarderStep(SHELL, ProcessExit(info, [OWNER]))]
  }

  function Announcing(): (es: seq<Event>) {
    [ForwarderStep(SHELL, Lock)] + [ForwarderStep(SHELL, Write(true))]
  }

  function Intruding(): (es: seq<Event>) {
    [ForwarderStep(SHELL, ScheduleExit)] + [Connect(1)] + [AttachOld(1, SHELL, false)]
  }

  function Opened(): (s: State) {
    Scene(None, [], Replaying([READY], true), Unstarted, map[0 := HandlerOf(0)])
  }

  lemma Opens(cfg: Config)
    ensures Run(cfg, INITIAL, [Connect(0)] + [AttachFresh(0, SHELL, true)], Opened())
  {
    var s := Apply(cfg, INITIAL, Connect(0));
    var t := Apply(cfg, s, AttachFresh(0, SHELL, true));
    var (_, o) := AttachNew(s.table, SHELL, 0, true);
    assert ReplayMessages(SHELL, o) == [READY];
    assert t.table.live == {SHELL} && t.clients[0].att == Some(HELD);
    assert t == Opened();
    OneStep(cfg, INITIAL, Connect(0));
    OneStep(cfg, s, AttachFresh(0, SHELL, true));
    hide Apply, Enabled, Run;
    RunJoin(cfg, INITIAL, [Connect(0)], s, [AttachFresh(0, SHELL, true)], t);
  }

  lemma Attaches(cfg: Config)
    ensures Run(cfg, INITIAL, Attaching(), Attached())
  {
    var e := ClientStep(0, ReplayWrite(true));
    var u := Apply(cfg, Opened(), e);
    assert u.locks == map[] && [] + [READY] == [READY];
    assert u == Attached();
    OneStep(cfg, Opened(), e);
    Opens(cfg);
    hide Apply, Enabled, Run, Opened;
    RunJoin(cfg, INITIAL, [Connect(0)] + [AttachFresh(0, SHELL, true)], Opened(), [e], u);
  }

  lemma Exits(cfg: Config, info: ExitInfo)
    ensures Run(cfg, Attached(), Exiting(info), Exited(info))
  {
    var e1, e2, e3 := ForwarderStep(SHELL, Begin), ForwarderStep(SHELL, DataClosed),
                      ForwarderStep(SHELL, ProcessExit(info, [OWNER]));
    var s, t := Scene(None, [READY], Reading, Receiving, map[]), Scene(None, [READY], Reading, AwaitingExit, map[]);
    assert IsCollection(t.table.heap[SHELL], [OWNER]);
    assert Apply(cfg, Attached(), e1) == s && Apply(cfg, s, e2) == t && Apply(cfg, t, e3) == Exited(info);
    OneStep(cfg, Attached(), e1);
    OneStep(cfg, s, e2);
    OneStep(cfg, t, e3);
    hide Apply, Enabled, Run;
    RunJoin(cfg, Attached(), [e1], s, [e2], t);
    RunJoin(cfg, Attached(), [e1] + [e2], t, [e3], Exited(info));
  }

  lemma Announces(cfg: Config, info: ExitInfo)
    ensures Run(cfg, Exited(info), Announcing(), Announced(info))
  {
    var e1, e2 := ForwarderStep(SHELL, Lock), ForwarderStep(SHELL, Write(true));
    var s := Apply(cfg, Exited(info), e1);
    var t := Apply(cfg, s, e2);
    assert t.locks == map[] && [READY] + [Exit(info)] == [READY, Exit(info)];
    assert t == Announced(info);
    OneStep(cfg, Exited(info), e1);
    OneStep(cfg, s, e2);
    hide Apply, Enabled, Run;
    RunJoin(cfg, Exited(info), [e1], s, [e2], t);
  }

  // The cleanup is scheduled, and then a second socket asks for control.
  lemma Intrudes(cfg: Config, info: ExitInfo) returns (u: State)
    ensures Run(cfg, Announced(info), Intruding(), u)
    ensures Has(u.table, SHELL) && u.table.heap[SHELL].exit == Some(info) && u.table.timers == map[]
    ensures u.forwarders == map[SHELL := Done] && 1 in u.clients && u.clients[1].att.None?
  {
    var e1, e2, e3 := ForwarderStep(SHELL, ScheduleExit), Connect(1), AttachOld(1, SHELL, false);
    var s := Apply(cfg, Announced(info), e1);
    assert Expiring(s.table, SHELL);
    var t := Apply(cfg, s, e2);
    u := Apply(cfg, t, e3);
    OneStep(cfg, Announced(info), e1);
    OneStep(cfg, s, e2);
    OneStep(cfg, t, e3);
    hide Apply, Enabled, Run;
    RunJoin(cfg, Announced(info), [e1], s, [e2], t);
    RunJoin(cfg, Announced(info), [e1] + [e2], t, [e3], u);
  }

  // "An exited session is gone a millisecond later" is false: in this run its
  // exit is announced and its cleanup scheduled, a second socket is turned
  // away, and the session stays with no timer left.
  lemma ExitedSessionStays(cfg: Config, info: ExitInfo) returns (s: State)
    ensures Run(cfg, INITIAL, Attaching() + Exiting(info) + Announcing() + Intruding(), s) && Reachable(cfg, s)
    ensures Has(s.table, SHELL) && s.table.heap[SHELL].exit == Some(info) && s.table.timers == map[]
    ensures s.forwarders == map[SHELL := Done] && 1 in s.clients && s.clients[1].att.None?
  {
    Attaches(cfg);
    Exits(cfg, info);
    Announces(cfg, info);
    s := Intrudes(cfg, info);
    hide Run, Attaching, Exiting, Announcing, Intruding, Attached, Exited, Announced;
    RunJoin(cfg, INITIAL, Attaching(), Attached(), Exiting(info), Exited(info));
    RunJoin(cfg, INITIAL, Attaching() + Exiting(info), Exited(info), Announcing(), Announced(info));
    RunJoin(cfg, INITIAL, Attaching() + Exiting(info) + Announcing(), Announced(info), Intruding(), s);
  }
}
