// Cleanup timers: what a late callback may still remove, and that no session is
// forgotten.

module ProtocolCleanup {
  import opened Wrappers
  import Utf8
  import History
  import opened SessionTable
  import opened Protocol
  import opened ProtocolShape

  // Before its exit is recorded, a forwarder is in one of these.
  predicate BeforeExit(f: Forwarder) {
    f.Unstarted? || f.Receiving? || f.AwaitingExit? || (f.Sending? && !f.msg.Exit?)
  }

  ghost predicate ExitInOrder(s: State, sid: SessionId)
    requires sid in s.table.heap && sid in s.forwarders
  {
    && (BeforeExit(s.forwarders[sid]) ==> s.table.heap[sid].exit.None?)
    && (!BeforeExit(s.forwarders[sid]) && !s.forwarders[sid].Done? ==> s.table.heap[sid].exit.Some?)
  }

  // A callback that is still out there, and what it may still do.
  ghost predicate TimerFits(cfg: Config, t: Table, key: TimerKey)
    requires key in t.timers
  {
    && key.sid in t.heap
    && key.generation <= t.heap[key.sid].generation
    && (cfg.ttlMs <= 0 ==> t.heap[key.sid].exit.Some?)
    && (key.generation == t.heap[key.sid].generation && Has(t, key.sid) ==>
          && t.timers[key].attaches == t.heap[key.sid].attaches
          && (t.heap[key.sid].exit.None? ==> !HasConnections(t.heap[key.sid])))
  }

  // The callback that will remove the session unless somebody comes back.
  predicate Pending(t: Table, sid: SessionId) {
    && sid in t.heap && t.heap[sid].timer == Some(t.heap[sid].generation)
    && TimerKey(sid, t.heap[sid].generation) in t.timers
  }

  // Why a live session is still wanted.
  ghost predicate Accounted(cfg: Config, s: State, sid: SessionId) {
    Has(s.table, sid) ==>
      || HasConnections(s.table.heap[sid])
      || Pending(s.table, sid)
      || (cfg.ttlMs <= 0
          && (s.table.heap[sid].exit.None? || (sid in s.forwarders && !s.forwarders[sid].Done?)))
  }

  ghost predicate Timed(cfg: Config, s: State) {
    && (forall sid :: sid in s.table.heap && sid in s.forwarders ==> ExitInOrder(s, sid))
    && AllTimersFit(cfg, s.table)
    && (forall sid :: sid in s.table.live ==> Accounted(cfg, s, sid))
  }

  // ---------------------------------------- the locked sections, one at a time

  ghost predicate AllTimersFit(cfg: Config, t: Table) {
    forall key :: key in t.timers ==> TimerFits(cfg, t, key)
  }

  lemma StopKeepsFit(cfg: Config, t: Table, sid: SessionId)
    requires AllTimersFit(cfg, t)
    ensures AllTimersFit(cfg, StopTimer(t, sid))
  {
    forall key | key in StopTimer(t, sid).timers ensures TimerFits(cfg, StopTimer(t, sid), key) {
      assert TimerFits(cfg, t, key);
    }
  }

  lemma ScheduleKeepsFit(cfg: Config, t: Table, sid: SessionId, delayMs: int)
    requires AllTimersFit(cfg, t)
    requires Has(t, sid) && cfg.ttlMs <= 0 ==> t.heap[sid].exit.Some?
    ensures AllTimersFit(cfg, Schedule(t, sid, delayMs))
    ensures Has(t, sid) ==> HasConnections(t.heap[sid]) || Pending(Schedule(t, sid, delayMs), sid)
    ensures Has(t, sid) && t.heap[sid].exit.Some? ==> Pending(Schedule(t, sid, delayMs), sid)
  {
    if Has(t, sid) {
      StopKeepsFit(cfg, t, sid);
      var t1, t' := StopTimer(t, sid), Schedule(t, sid, delayMs);
      hide StopTimer;
      forall key | key in t'.timers ensures TimerFits(cfg, t', key) {
        assert key in t1.timers ==> TimerFits(cfg, t1, key);
      }
    }
  }

  // Losing a connection never makes a timer unfit.
  lemma ForgetKeepsFit(cfg: Config, t: Table, sid: SessionId, conn: ConnId)
    requires AllTimersFit(cfg, t) && Has(t, sid)
    ensures AllTimersFit(cfg, Put(t, sid, Forget(t.heap[sid], conn)))
  {
    var t' := Put(t, sid, Forget(t.heap[sid], conn));
    forall key | key in t'.timers ensures TimerFits(cfg, t', key) {
      assert TimerFits(cfg, t, key);
    }
  }

  lemma DetachKeepsFit(cfg: Config, t: Table, sid: SessionId, conn: ConnId)
    requires AllTimersFit(cfg, t)
    ensures AllTimersFit(cfg, Detach(t, cfg.ttlMs, sid, conn))
    ensures Has(t, sid) && (cfg.ttlMs > 0 || t.heap[sid].exit.Some?) ==>
      HasConnections(Detach(t, cfg.ttlMs, sid, conn).heap[sid]) || Pending(Detach(t, cfg.ttlMs, sid, conn), sid)
  {
    hide StopTimer, Schedule;
    if Has(t, sid) {
      ForgetKeepsFit(cfg, t, sid, conn);
      var t0 := Put(t, sid, Forget(t.heap[sid], conn));
      StopKeepsFit(cfg, t0, sid);
      var t1 := StopTimer(t0, sid);
      if t1.heap[sid].exit.Some? {
        ScheduleKeepsFit(cfg, t1, sid, 1);
      } else if cfg.ttlMs > 0 {
        ScheduleKeepsFit(cfg, t1, sid, cfg.ttlMs);
      }
    }
  }

  lemma AttachKeepsFit(cfg: Config, t: Table, sid: SessionId, conn: ConnId, watch: bool)
    requires AllTimersFit(cfg, t)
    ensures AllTimersFit(cfg, AttachExisting(t, cfg.max, sid, conn, watch).0)
    ensures Has(t, sid) && !t.closed ==> HasConnections(AttachExisting(t, cfg.max, sid, conn, watch).0.heap[sid])
  {
    hide History.Replay, Utf8.Concat;
    if Has(t, sid) && !t.closed {
      var t' := AttachExisting(t, cfg.max, sid, conn, watch).0;
      forall key | key in t'.timers ensures TimerFits(cfg, t', key) {
        assert TimerFits(cfg, t, key);
      }
      assert watch ==> conn in t'.heap[sid].watchers;
    }
  }

  lemma RunKeepsFit(cfg: Config, t: Table, key: TimerKey)
    requires AllTimersFit(cfg, t)
    ensures AllTimersFit(cfg, Cleanup(t, key))
  {
    forall k | k in Cleanup(t, key).timers ensures TimerFits(cfg, Cleanup(t, key), k) {
      assert TimerFits(cfg, t, k);
    }
  }

  // Work on one session leaves every other session and its timers alone.
  ghost predicate Isolated(t: Table, t': Table, sid: SessionId, other: SessionId) {
    other != sid && other in t.heap ==>
      && other in t'.heap && t'.heap[other] == t.heap[other]
      && forall g :: TimerKey(other, g) in t.timers ==> TimerKey(other, g) in t'.timers
  }

  lemma DetachIsIsolated(t: Table, ttlMs: int, sid: SessionId, conn: ConnId, other: SessionId)
    ensures Isolated(t, Detach(t, ttlMs, sid, conn), sid, other)
  {
  }

  lemma ScheduleIsIsolated(t: Table, sid: SessionId, delayMs: int, other: SessionId)
    ensures Isolated(t, Schedule(t, sid, delayMs), sid, other)
  {
  }

  lemma AttachIsIsolated(t: Table, max: nat, sid: SessionId, conn: ConnId, watch: bool, other: SessionId)
    ensures Isolated(t, AttachExisting(t, max, sid, conn, watch).0, sid, other)
  {
    hide History.Replay, Utf8.Concat;
  }

  // ------------------------------------------------------------------ one step

  lemma ExitAfterForwarderStep(cfg: Config, s: State, sid: SessionId, step: ForwarderMove)
    requires Shaped(s) && Timed(cfg, s) && Enabled(s, ForwarderStep(sid, step))
    ensures ExitInOrder(Apply(cfg, s, ForwarderStep(sid, step)), sid)
  {
    hide Schedule, ForwarderLocks, ForwarderClients;
    assert ExitInOrder(s, sid);
  }

  ghost predicate ExitKept(s: State, s': State, sid: SessionId)
    requires s.forwarders.Keys == s.table.heap.Keys && sid in s'.table.heap
  {
    && sid in s'.forwarders
    && (if sid in s.table.heap then
          s'.table.heap[sid].exit == s.table.heap[sid].exit && s'.forwarders[sid] == s.forwarders[sid]
        else s'.table.heap[sid].exit.None? && s'.forwarders[sid].Unstarted?)
  }

  lemma ExitAfterAttach(cfg: Config, s: State, e: Event, sid: SessionId)
    requires s.forwarders.Keys == s.table.heap.Keys && Enabled(s, e) && (e.AttachOld? || e.AttachFresh?)
    requires sid in Apply(cfg, s, e).table.heap
    ensures ExitKept(s, Apply(cfg, s, e), sid)
  {
    hide StopTimer, BeginAttach, History.Replay, Utf8.Concat;
  }

  lemma ExitAfterDetach(cfg: Config, s: State, c: ConnId, sid: SessionId)
    requires s.forwarders.Keys == s.table.heap.Keys && Enabled(s, DetachClient(c))
    requires sid in Apply(cfg, s, DetachClient(c)).table.heap
    ensures ExitKept(s, Apply(cfg, s, DetachClient(c)), sid)
  {
    hide Detach;
  }

  lemma ExitAfterForwarder(cfg: Config, s: State, x: SessionId, step: ForwarderMove, sid: SessionId)
    requires s.forwarders.Keys == s.table.heap.Keys && Enabled(s, ForwarderStep(x, step)) && x != sid
    requires sid in Apply(cfg, s, ForwarderStep(x, step)).table.heap
    ensures ExitKept(s, Apply(cfg, s, ForwarderStep(x, step)), sid)
  {
    hide ForwarderCan, ForwarderClients, ForwarderLocks, MoveForwarder, Schedule;
  }

  // Events that touch no field of a session but its name or its timer handle.
  lemma ExitAfterOther(cfg: Config, s: State, e: Event, sid: SessionId)
    requires s.forwarders.Keys == s.table.heap.Keys && Enabled(s, e)
    requires !e.AttachOld? && !e.AttachFresh? && !e.DetachClient? && !e.ForwarderStep?
    requires sid in Apply(cfg, s, e).table.heap
    ensures ExitKept(s, Apply(cfg, s, e), sid)
  {
    hide StopTimer, MoveClient, ClientLocks;
  }

  // Only the forwarder of a session records its exit.
  lemma ExitUntouched(cfg: Config, s: State, e: Event, sid: SessionId)
    requires Shaped(s) && Enabled(s, e) && (e.ForwarderStep? ==> e.sid != sid)
    requires sid in Apply(cfg, s, e).table.heap
    ensures ExitKept(s, Apply(cfg, s, e), sid)
  {
    assert s.forwarders.Keys == s.table.heap.Keys;
    hide Shaped, Apply, Enabled, ExitKept;
    match e
    case AttachOld(_, _, _) => ExitAfterAttach(cfg, s, e, sid);
    case AttachFresh(_, _, _) => ExitAfterAttach(cfg, s, e, sid);
    case DetachClient(c) => ExitAfterDetach(cfg, s, c, sid);
    case ForwarderStep(x, step) => ExitAfterForwarder(cfg, s, x, step, sid);
    case _ => ExitAfterOther(cfg, s, e, sid);
  }

  lemma ExitStaysInOrder(cfg: Config, s: State, e: Event, sid: SessionId)
    requires Shaped(s) && Timed(cfg, s) && Enabled(s, e)
    requires sid in Apply(cfg, s, e).table.heap && sid in Apply(cfg, s, e).forwarders
    ensures ExitInOrder(Apply(cfg, s, e), sid)
  {
    hide Apply, Enabled;
    if e.ForwarderStep? && e.sid == sid {
      ExitAfterForwarderStep(cfg, s, sid, e.step);
    } else {
      ExitUntouched(cfg, s, e, sid);
      assert sid in s.table.heap ==> ExitInOrder(s, sid);
    }
  }

  // Events whose effect on the table is none, a name, or longer output.
  predicate LeavesTimersAlone(e: Event) {
    || e.Connect? || e.RenameSession? || e.ClientStep? || e.ReapClose? || e.TimerFires? || e.ShutdownManager?
    || e.AttachFresh? || (e.ForwarderStep? && !e.step.ScheduleExit?)
  }

  ghost predicate QuietTimers(t: Table, t': Table) {
    && t'.timers.Keys == t.timers.Keys
    && forall key :: key in t.timers ==> t'.timers[key].attaches == t.timers[key].attaches
  }

  predicate QuietSession(a: Session, b: Session) {
    b == a.(output := b.output, name := b.name, exit := b.exit) && (a.exit.Some? ==> b.exit.Some?)
  }

  lemma QuietStep(cfg: Config, s: State, e: Event, sid: SessionId)
    requires Enabled(s, e) && LeavesTimersAlone(e)
    ensures QuietTimers(s.table, Apply(cfg, s, e).table)
    ensures sid in s.table.heap ==>
      sid in Apply(cfg, s, e).table.heap && QuietSession(s.table.heap[sid], Apply(cfg, s, e).table.heap[sid])
  {
    hide AttachExisting, MoveClient, ClientLocks, ForwarderLocks, MoveForwarder, ForwarderClients, IsCollection;
  }

  lemma FitAfterQuietStep(cfg: Config, s: State, e: Event, key: TimerKey)
    requires Shaped(s) && AllTimersFit(cfg, s.table) && Enabled(s, e) && LeavesTimersAlone(e)
    requires key in Apply(cfg, s, e).table.timers
    ensures TimerFits(cfg, Apply(cfg, s, e).table, key)
  {
    hide Apply, Enabled;
    QuietStep(cfg, s, e, key.sid);
    LiveAfter(cfg, s, e, key.sid);
    assert key in s.table.timers && TimerFits(cfg, s.table, key);
  }

  lemma TimersStayFit(cfg: Config, s: State, e: Event)
    requires Shaped(s) && Timed(cfg, s) && Enabled(s, e)
    ensures AllTimersFit(cfg, Apply(cfg, s, e).table)
  {
    if LeavesTimersAlone(e) {
      hide Apply, Enabled;
      forall key | key in Apply(cfg, s, e).table.timers ensures TimerFits(cfg, Apply(cfg, s, e).table, key) {
        FitAfterQuietStep(cfg, s, e, key);
      }
    } else {
      hide StopTimer, BeginAttach, Schedule, Detach, AttachExisting, Cleanup, StopFrozenTimer;
      match e
      case AttachOld(c, sid, watch) => AttachKeepsFit(cfg, s.table, sid, c, watch);
      case DetachClient(c) => DetachKeepsFit(cfg, s.table, s.clients[c].att.value.sid, c);
      case TimerRuns(key) => RunKeepsFit(cfg, s.table, key);
      case ReapStop(sid) => FrozenStopFits(cfg, s.table, sid);
      case ForwarderStep(sid, _) =>
        assert ExitInOrder(s, sid);
        ScheduleKeepsFit(cfg, s.table, sid, 1);
    }
  }

  lemma FrozenStopFits(cfg: Config, t: Table, sid: SessionId)
    requires AllTimersFit(cfg, t)
    ensures AllTimersFit(cfg, StopFrozenTimer(t, sid))
  {
    forall key | key in StopFrozenTimer(t, sid).timers ensures TimerFits(cfg, StopFrozenTimer(t, sid), key) {
      assert TimerFits(cfg, t, key);
    }
  }

  lemma AccountedAfterQuietStep(cfg: Config, s: State, e: Event, sid: SessionId)
    requires Shaped(s) && Timed(cfg, s) && Enabled(s, e) && LeavesTimersAlone(e)
    requires sid in Apply(cfg, s, e).table.live
    ensures Accounted(cfg, Apply(cfg, s, e), sid)
  {
    hide Apply, Enabled;
    var s' := Apply(cfg, s, e);
    ShapedStep(cfg, s, e);
    ExitStaysInOrder(cfg, s, e, sid);
    if sid in s.table.heap {
      LiveAfter(cfg, s, e, sid);
      QuietStep(cfg, s, e, sid);
      assert Accounted(cfg, s, sid);
      if e.ForwarderStep? && e.sid == sid {
        ForwarderStaysUp(cfg, s, sid, e.step);
      } else {
        ExitUntouched(cfg, s, e, sid);
      }
    } else {
      LiveAfter(cfg, s, e, sid);
      FreshHasController(cfg, s, e, sid);
    }
  }

  // The forwarder of an exited session is over only after ScheduleExit.
  lemma ForwarderStaysUp(cfg: Config, s: State, sid: SessionId, step: ForwarderMove)
    requires Timed(cfg, s) && Enabled(s, ForwarderStep(sid, step)) && !step.ScheduleExit? && Has(s.table, sid)
    ensures var s' := Apply(cfg, s, ForwarderStep(sid, step));
            s'.table.heap[sid].exit.None? || !s'.forwarders[sid].Done?
  {
    hide ForwarderLocks, ForwarderClients;
    assert ExitInOrder(s, sid);
  }

  lemma FreshHasController(cfg: Config, s: State, e: Event, sid: SessionId)
    requires Enabled(s, e) && sid !in s.table.live && sid in Apply(cfg, s, e).table.live
    ensures Has(Apply(cfg, s, e).table, sid) ==> HasConnections(Apply(cfg, s, e).table.heap[sid])
  {
    hide StopTimer, BeginAttach, Schedule, Detach, MoveClient, ClientLocks, ForwarderLocks, MoveForwarder;
  }

  // The callback that was accounting for a session removes it.
  lemma AccountedAfterCallback(cfg: Config, s: State, key: TimerKey, sid: SessionId)
    requires Timed(cfg, s) && key in s.table.timers && sid in s.table.live && sid in s.table.heap
    requires sid in Cleanup(s.table, key).live
    ensures Accounted(cfg, s.(table := Cleanup(s.table, key)), sid)
  {
    assert Accounted(cfg, s, sid) && TimerFits(cfg, s.table, key);
  }

  lemma AccountedAfterTableStep(cfg: Config, s: State, e: Event, sid: SessionId)
    requires Shaped(s) && Timed(cfg, s) && Enabled(s, e) && !LeavesTimersAlone(e)
    requires sid in s.table.live && sid in s.table.heap && sid in Apply(cfg, s, e).table.live
    ensures Accounted(cfg, Apply(cfg, s, e), sid)
  {
    hide StopTimer, BeginAttach, Schedule, Detach, AttachExisting, Cleanup;
    hide ForwarderLocks, ForwarderClients, IsCollection;
    assert Accounted(cfg, s, sid) && ExitInOrder(s, sid);
    match e
    case AttachOld(c, x, watch) => AccountedAfterAttach(cfg, s, c, x, watch, sid);
    case DetachClient(c) =>
      DetachKeepsFit(cfg, s.table, s.clients[c].att.value.sid, c);
      DetachIsIsolated(s.table, cfg.ttlMs, s.clients[c].att.value.sid, c, sid);
    case ForwarderStep(x, _) =>
      assert ExitInOrder(s, x);
      ScheduleKeepsFit(cfg, s.table, x, 1);
      ScheduleIsIsolated(s.table, x, 1, sid);
    case TimerRuns(key) => AccountedAfterCallback(cfg, s, key, sid);
    case ReapStop(x) => ReapIsIsolated(s.table, x, sid);
  }

  lemma AccountedAfterAttach(cfg: Config, s: State, c: ConnId, x: SessionId, watch: bool, sid: SessionId)
    requires Timed(cfg, s) && Enabled(s, AttachOld(c, x, watch))
    requires sid in s.table.live && sid in s.table.heap && sid in Apply(cfg, s, AttachOld(c, x, watch)).table.live
    ensures Accounted(cfg, Apply(cfg, s, AttachOld(c, x, watch)), sid)
  {
    hide StopTimer, BeginAttach, AttachExisting;
    assert Accounted(cfg, s, sid);
    AttachKeepsFit(cfg, s.table, x, c, watch);
    AttachIsIsolated(s.table, cfg.max, x, c, watch, sid);
    AttachNeedsOpen(s.table, cfg.max, x, c, watch);
  }

  lemma ReapIsIsolated(t: Table, sid: SessionId, other: SessionId)
    ensures Isolated(t, StopFrozenTimer(t, sid), sid, other)
  {
  }

  lemma AttachNeedsOpen(t: Table, max: nat, sid: SessionId, conn: ConnId, watch: bool)
    ensures t.closed ==> AttachExisting(t, max, sid, conn, watch).0 == t
  {
  }

  lemma TimedStep(cfg: Config, s: State, e: Event)
    requires Shaped(s) && Timed(cfg, s) && Enabled(s, e)
    ensures Timed(cfg, Apply(cfg, s, e))
  {
    hide Apply, Enabled;
    var s' := Apply(cfg, s, e);
    TimersStayFit(cfg, s, e);
    forall sid | sid in s'.table.heap && sid in s'.forwarders ensures ExitInOrder(s', sid) {
      ExitStaysInOrder(cfg, s, e, sid);
    }
    forall sid | sid in s'.table.live ensures Accounted(cfg, s', sid) {
      if LeavesTimersAlone(e) {
        AccountedAfterQuietStep(cfg, s, e, sid);
      } else {
        LiveAfter(cfg, s, e, sid);
        AccountedAfterTableStep(cfg, s, e, sid);
      }
    }
  }
}
