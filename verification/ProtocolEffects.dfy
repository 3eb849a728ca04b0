// What the steps of the server achieve: who may attach and as what, what
// reaches a process or a socket, which timers are armed, who is closed.

module ProtocolEffects {
  import opened Wrappers
  import opened SessionTable
  import opened Protocol
  import opened ProtocolShape
  import opened ProtocolCleanup
  import opened ProtocolTheorems
  import ProtocolControl
  import ProtocolLocks
  import ProtocolDelivery
  import Utf8
  import History

  // --------------------------------------------------------------- attaching

  // Why an attach that names a session is turned away, and that nobody else is:
  // only control is exclusive, watchers are always let in.
  lemma AttachOutcomes(t: Table, max: nat, sid: SessionId, c: ConnId, watch: bool)
    ensures var o := AttachExisting(t, max, sid, c, watch).1;
      && (o.ManagerClosed? <==> t.closed)
      && (o.NotFound? <==> !t.closed && !Has(t, sid))
      && (o.AlreadyAttached? <==>
            && !t.closed && Has(t, sid) && !watch
            && t.heap[sid].controller.Some? && t.heap[sid].controller.value.conn != c)
      && !o.SpawnFailed?
  {
    hide StopTimer, Utf8.Concat, History.Replay;
  }

  predicate MayAttach(t: Table, sid: SessionId, c: ConnId, watch: bool) {
    && !t.closed && Has(t, sid)
    && (watch || t.heap[sid].controller.None? || t.heap[sid].controller.value.conn == c)
  }

  lemma AttachesExactly(cfg: Config, s: State, c: ConnId, sid: SessionId, watch: bool)
    requires Enabled(s, AttachOld(c, sid, watch))
    ensures var s' := Apply(cfg, s, AttachOld(c, sid, watch));
      && c in s'.clients
      && (s'.clients[c].att.Some? <==> MayAttach(s.table, sid, c, watch))
      && (if MayAttach(s.table, sid, c, watch) then
            var att := s'.clients[c].att.value;
            && att.sid == sid && att.readOnly == watch && s'.clients[c].phase.Replaying?
            && sid in s'.table.heap && RegisteredAs(s'.table.heap[sid], c, att)
          else s'.clients == s.clients)
  {
    hide StopTimer, Utf8.Concat, History.Replay;
  }

  // Without a session id the attach makes one, controlled by its socket, as
  // soon as the manager is open and the process starts.
  lemma CreatesExactly(cfg: Config, s: State, c: ConnId, sid: SessionId, spawned: bool)
    requires Enabled(s, AttachFresh(c, sid, spawned))
    ensures var s' := Apply(cfg, s, AttachFresh(c, sid, spawned));
      && c in s'.clients
      && (s'.clients[c].att.Some? <==> !s.table.closed && spawned)
      && (if !s.table.closed && spawned then
            var att := s'.clients[c].att.value;
            && att.sid == sid && !att.readOnly && s'.clients[c].phase.Replaying?
            && s'.table.live == s.table.live + {sid} && s'.table.heap[sid] == NewSession(att.ref)
            && sid in s'.forwarders && s'.forwarders[sid].Unstarted?
          else s' == s)
  {
  }

  // --------------------------------------------------- handler and forwarder

  // Input of a controller reaches its process exactly if the session is in the
  // map and has not exited.
  lemma InputGoesThrough(cfg: Config, s: State, c: ConnId)
    requires Enabled(s, ClientStep(c, CheckInput))
    ensures var sid, t := s.clients[c].att.value.sid, Apply(cfg, s, ClientStep(c, CheckInput));
      && t.inputs == s.inputs && t.table == s.table
      && (Enabled(t, ClientStep(c, PerformInput)) <==> Has(s.table, sid) && s.table.heap[sid].exit.None?)
      && (if Has(s.table, sid) && s.table.heap[sid].exit.None? then
            Apply(cfg, t, ClientStep(c, PerformInput)) == s.(inputs := s.inputs + [Input(sid, c)])
          else t == s)
  {
    var sid, t := s.clients[c].att.value.sid, Apply(cfg, s, ClientStep(c, CheckInput));
    assert s.clients[c := s.clients[c]] == s.clients;
    if Has(s.table, sid) && s.table.heap[sid].exit.None? {
      assert Apply(cfg, t, ClientStep(c, PerformInput)).clients == s.clients;
    }
  }

  // What a handler says while attached waits for its own sessionConn; before
  // that it is written directly; once the session is gone it is dropped.
  lemma SayFindsItsConnection(cfg: Config, s: State, c: ConnId, text: string)
    requires Reachable(cfg, s) && Enabled(s, ClientStep(c, Say(text)))
    ensures var client, s' := s.clients[c], Apply(cfg, s, ClientStep(c, Say(text)));
      c in s'.clients && s'.clients[c] ==
        if client.att.None? then client.(phase := DirectSend(text))
        else if Has(s.table, client.att.value.sid) then client.(phase := SendWaiting(client.att.value.ref, text))
        else client
  {
    hide Inv;
    ReachableInv(cfg, s);
    RegisteredOf(cfg, s, c);
    if s.clients[c].att.Some? {
      ConnectionsAreDisjoint(cfg, s, s.clients[c].att.value.sid);
      FindsItself(cfg, s, c);
    }
    hide Reachable;
  }

  lemma FindsItself(cfg: Config, s: State, c: ConnId)
    requires Reachable(cfg, s) && c in s.clients && Owes(s.clients[c])
    ensures var att := s.clients[c].att.value;
      att.sid in s.table.heap && Find(s.table.heap[att.sid], c) == Some(att.ref)
  {
    hide Inv, Reachable, ProtocolLocks.Locked;
    var att := s.clients[c].att.value;
    ReachableInv(cfg, s);
    LocksOf(cfg, s);
    RegisteredOf(cfg, s, c);
    assert ShapedSession(s, att.sid);
  }

  // The message and the socket of a step that writes.
  datatype Writing = Nothing | Writing(c: ConnId, msg: Msg, ok: bool)

  function WriteOf(s: State, e: Event): (w: Writing) {
    match e
    case ClientStep(c, ReplayWrite(ok)) =>
      if c in s.clients && s.clients[c].phase.Replaying? && s.clients[c].phase.todo != []
      then Writing(c, s.clients[c].phase.todo[0], ok) else Nothing
    case ClientStep(c, DirectWrite(ok)) =>
      if c in s.clients && s.clients[c].phase.DirectSend?
      then Writing(c, Control(s.clients[c].phase.text), ok) else Nothing
    case ClientStep(c, SendWrite(ok)) =>
      if c in s.clients && s.clients[c].phase.SendHolding?
      then Writing(c, Control(s.clients[c].phase.text), ok) else Nothing
    case ForwarderStep(sid, Write(ok)) =>
      if sid in s.forwarders && s.forwarders[sid].Sending? && s.forwarders[sid].todo != []
      then Writing(s.forwarders[sid].todo[0].conn, s.forwarders[sid].msg, ok) else Nothing
    case _ => Nothing
  }

  predicate ClosedBy(s: State, e: Event, c: ConnId) {
    || e == ClientStep(c, PeerClose) || e == ClientStep(c, CloseSocket)
    || (e.ReapClose? && e.c == c)
    || (WriteOf(s, e).Writing? && WriteOf(s, e).c == c && !WriteOf(s, e).ok)
  }

  predicate SocketEffect(s: State, e: Event, s': State, c: ConnId)
    requires c in s.clients
  {
    var client, w := s.clients[c], WriteOf(s, e);
    && c in s'.clients
    && s'.clients[c].wire ==
       (if client.open && w.Writing? && w.c == c && w.ok then client.wire + [w.msg] else client.wire)
    && (s'.clients[c].open <==> client.open && !ClosedBy(s, e, c))
  }

  lemma OwnStepSocketEffect(cfg: Config, s: State, c: ConnId, move: ClientMove)
    requires Enabled(s, ClientStep(c, move))
    ensures SocketEffect(s, ClientStep(c, move), Apply(cfg, s, ClientStep(c, move)), c)
  {
    hide ClientLocks;
  }

  lemma ForwarderSocketEffect(cfg: Config, s: State, sid: SessionId, step: ForwarderMove, c: ConnId)
    requires Enabled(s, ForwarderStep(sid, step)) && c in s.clients
    ensures SocketEffect(s, ForwarderStep(sid, step), Apply(cfg, s, ForwarderStep(sid, step)), c)
  {
    hide ForwarderLocks, ForwarderTable, MoveForwarder, IsCollection, CreatorDone;
  }

  lemma OtherSocketEffect(cfg: Config, s: State, e: Event, c: ConnId)
    requires Enabled(s, e) && c in s.clients && !e.ForwarderStep? && !(e.ClientStep? && e.c == c)
    ensures SocketEffect(s, e, Apply(cfg, s, e), c)
  {
    hide AttachExisting, AttachNew, Detach, Rename, Cleanup, StopFrozenTimer, Find, MoveClient, ClientLocks;
  }

  // A write to an open socket that does not fail arrives, and nothing else
  // does; a socket is closed by a failed write, its peer, its handler or the
  // removal of its session, and by nothing else.
  lemma SocketsChangeExactly(cfg: Config, s: State, e: Event, c: ConnId)
    requires Enabled(s, e) && c in s.clients
    ensures SocketEffect(s, e, Apply(cfg, s, e), c)
  {
    hide Apply, Enabled, SocketEffect;
    if e.ForwarderStep? {
      ForwarderSocketEffect(cfg, s, e.sid, e.step, c);
    } else if e.ClientStep? && e.c == c {
      OwnStepSocketEffect(cfg, s, c, e.move);
    } else {
      OtherSocketEffect(cfg, s, e, c);
    }
  }

  predicate Forwarding(f: Forwarder) {
    f.Receiving? || (f.Sending? && f.msg.Output?)
  }

  predicate Announcing(f: Forwarder) {
    f.Scheduling? || (f.Sending? && f.msg.Exit?)
  }

  // While its session is in the map a forwarder stops forwarding only when the
  // data ends, and then announces the exit and schedules the cleanup.
  lemma ForwarderPath(cfg: Config, s: State, sid: SessionId, step: ForwarderMove)
    requires Enabled(s, ForwarderStep(sid, step)) && Has(s.table, sid)
    ensures var f, f' := s.forwarders[sid], Apply(cfg, s, ForwarderStep(sid, step)).forwarders[sid];
      && (f.Unstarted? ==> f'.Receiving?)
      && (Forwarding(f) ==> if step.DataClosed? then f'.AwaitingExit? else Forwarding(f'))
      && (f.AwaitingExit? ==> if step.ProcessExit? then Announcing(f') else f'.Done?)
      && (f.Sending? && f.msg.Exit? ==> Announcing(f'))
      && (f.Scheduling? ==> f'.Done?)
      && (f.Sending? && step.Write? ==> if |f.todo| > 1 then f' == Sending(f.msg, f.todo[1..], false) else !f'.Sending?)
  {
    hide ForwarderLocks, ForwarderClients, ForwarderTable, IsCollection, CreatorDone;
  }

  // ----------------------------------------------------- timers and removal

  // Only the connections of c are forgotten.
  ghost predicate Forgotten(a: Session, b: Session, c: ConnId) {
    forall d :: Find(b, d) == if d == c then None else Find(a, d)
  }

  // A detach forgets its socket. It leaves an exited session with a fresh
  // callback 1 ms away, and a running one with one DetachedTTL away exactly if
  // it was the last connection and the TTL is positive.
  lemma DetachArms(cfg: Config, s: State, c: ConnId)
    requires Enabled(s, DetachClient(c)) && Has(s.table, s.clients[c].att.value.sid)
    ensures var sid, t, t' := s.clients[c].att.value.sid, s.table, Apply(cfg, s, DetachClient(c)).table;
      && Has(t', sid) && t'.live == t.live && Forgotten(t.heap[sid], t'.heap[sid], c)
      && (Pending(t', sid) <==> t.heap[sid].exit.Some? || (cfg.ttlMs > 0 && !HasConnections(t'.heap[sid])))
      && (t'.heap[sid].timer.Some? <==> Pending(t', sid))
      && (Pending(t', sid) ==>
            && t'.heap[sid].generation == t.heap[sid].generation + 1
            && t'.timers[TimerKey(sid, t'.heap[sid].generation)]
               == Timer(false, if t.heap[sid].exit.Some? then 1 else cfg.ttlMs, t.heap[sid].attaches))
  {
  }

  // When its exit has been announced, a session waits 1 ms for its removal.
  lemma ExitArms(cfg: Config, s: State, sid: SessionId)
    requires Reachable(cfg, s) && Enabled(s, ForwarderStep(sid, ScheduleExit)) && Has(s.table, sid)
    ensures var t' := Apply(cfg, s, ForwarderStep(sid, ScheduleExit)).table;
      && Has(t', sid) && Pending(t', sid)
      && t'.timers[TimerKey(sid, t'.heap[sid].generation)] == Timer(false, 1, s.table.heap[sid].attaches)
  {
    ExitIsRecorded(cfg, s, sid);
    hide Reachable;
  }

  lemma ExitIsRecorded(cfg: Config, s: State, sid: SessionId)
    requires Reachable(cfg, s) && sid in s.forwarders && s.forwarders[sid].Scheduling? && Has(s.table, sid)
    ensures s.table.heap[sid].exit.Some?
  {
    hide Reachable, Shaped, ProtocolControl.Controlled, ProtocolLocks.Locked, ProtocolDelivery.AllDelivered;
    ReachableInv(cfg, s);
    assert ExitInOrder(s, sid);
  }

  // Running a callback takes its session out of the map exactly if the
  // generation is still its own; it changes nothing else.
  lemma CallbackEffect(cfg: Config, s: State, key: TimerKey)
    requires Reachable(cfg, s) && Enabled(s, TimerRuns(key))
    ensures var s' := Apply(cfg, s, TimerRuns(key));
      && s' == s.(table := s.table.(live := s'.table.live, timers := s.table.timers - {key}))
      && s'.table.live ==
         if Has(s.table, key.sid) && s.table.heap[key.sid].generation == key.generation
         then s.table.live - {key.sid} else s.table.live
  {
    hide Reachable, Removes;
    CallbackRemovesExactly(cfg, s, key);
  }

  // A callback that starts can run from then on, whatever is stopped: Stop and
  // a new generation leave it there.
  lemma FiringEffect(cfg: Config, s: State, key: TimerKey)
    requires Enabled(s, TimerFires(key))
    ensures var s' := Apply(cfg, s, TimerFires(key));
      && Enabled(s', TimerRuns(key))
      && s' == s.(table := s.table.(timers := s.table.timers[key := s.table.timers[key].(fired := true)]))
  {
  }

  // Stopping cancels exactly the callback the session points to, if that has
  // not started.
  lemma StopEffect(t: Table, sid: SessionId, key: TimerKey)
    ensures key in StopTimer(t, sid).timers <==>
      key in t.timers
      && !(sid in t.heap && key.sid == sid && t.heap[sid].timer == Some(key.generation) && !t.timers[key].fired)
    ensures key in StopTimer(t, sid).timers ==> StopTimer(t, sid).timers[key] == t.timers[key]
  {
  }

  // The unlocked tail of Shutdown does that to a session it took out.
  lemma ReapStopEffect(cfg: Config, s: State, sid: SessionId)
    requires Enabled(s, ReapStop(sid))
    ensures Apply(cfg, s, ReapStop(sid)) == s.(table := s.table.(timers := StopTimer(s.table, sid).timers))
  {
  }

  // Shutdown closes the manager and empties the map; sessions, sockets and
  // processes are left to the steps that follow.
  lemma ShutdownEffect(cfg: Config, s: State)
    ensures var s' := Apply(cfg, s, ShutdownManager);
      s' == s.(table := s'.table) && s'.table == s.table.(closed := true, live := {})
  {
  }

  // Every connection that a removed session still has can be closed.
  lemma RemovedIsClosed(cfg: Config, s: State, sid: SessionId, ref: Ref)
    requires Reachable(cfg, s) && sid in s.table.heap && sid !in s.table.live && Registered(s.table.heap[sid], ref)
    ensures Enabled(s, ReapClose(sid, ref.conn))
    ensures var s' := Apply(cfg, s, ReapClose(sid, ref.conn)); ref.conn in s'.clients && !s'.clients[ref.conn].open
  {
    hide Reachable, ProtocolLocks.Locked;
    LocksOf(cfg, s);
    assert ShapedSession(s, sid);
  }

  // One output chunk is appended to its own session, and one rename renames it.
  lemma OwnSessionOnly(cfg: Config, s: State, e: Event)
    requires Enabled(s, e) && (e.RenameSession? || (e.ForwarderStep? && (e.step.Data? || e.step.ProcessExit?)))
    ensures var sid, t' := if e.RenameSession? then s.clients[e.c].att.value.sid else e.sid, Apply(cfg, s, e).table;
      if !Has(s.table, sid) then t' == s.table
      else
        var a := s.table.heap[sid];
        t' == s.table.(heap := s.table.heap[sid :=
          if e.RenameSession? then a.(name := e.name)
          else if e.step.Data? then a.(output := a.output + [e.step.data])
          else a.(exit := Some(e.step.info))])
  {
    hide MoveForwarder, ForwarderLocks, ForwarderClients, IsCollection, CreatorDone;
  }

  // A handler that finished what it was doing reads the next message; a failed
  // replay or the end of reading leads to Detach, if it attached, and then to
  // the end.
  lemma HandlerPath(cfg: Config, s: State, c: ConnId, move: ClientMove)
    requires Enabled(s, ClientStep(c, move))
    ensures var a, b := s.clients[c], Apply(cfg, s, ClientStep(c, move)).clients[c];
      && b.att == a.att
      && (move.ReplayWrite? && a.open && move.ok ==>
            if |a.phase.todo| > 1 then b.phase == a.phase.(todo := a.phase.todo[1..]) else b.phase.Reading?)
      && (move.ReplayWrite? && !(a.open && move.ok) ==> b.phase.ReplayFailed?)
      && (move.DirectWrite? || move.SendWrite? || move.PerformInput? ==> b.phase.Reading?)
      && (move.SendLock? ==> b.phase == SendHolding(a.phase.ref, a.phase.text))
      && (move.Leave? ==> if a.att.Some? then b.phase.Leaving? else b.phase.Closing?)
      && (move.CloseSocket? ==> b.phase.Gone?)
      && (move.PeerClose? ==> b.phase == a.phase)
  {
    hide ClientLocks, Find, HasConnections;
  }

  // ------------------------------------------------------- nobody is stuck

  // The step a handler can take, if it is not gone and waits for no mutex.
  function HandlerStep(client: Client, c: ConnId): (e: Event) {
    match client.phase
    case Reading => ClientStep(c, Leave)
    case Replaying(_, _) => ClientStep(c, ReplayWrite(true))
    case DirectSend(_) => ClientStep(c, DirectWrite(true))
    case SendWaiting(_, _) => ClientStep(c, SendLock)
    case SendHolding(_, _) => ClientStep(c, SendWrite(true))
    case Acting => ClientStep(c, PerformInput)
    case ReplayFailed(_) => DetachClient(c)
    case Leaving => DetachClient(c)
    case Closing => ClientStep(c, CloseSocket)
    case Gone => ClientStep(c, PeerClose)
  }

  lemma HandlersCanMove(cfg: Config, s: State, c: ConnId, text: string, sid: SessionId, watch: bool)
    requires Reachable(cfg, s) && c in s.clients
    requires s.clients[c].phase.SendWaiting? ==> s.clients[c].phase.ref.serial !in s.locks
    ensures Enabled(s, HandlerStep(s.clients[c], c))
    ensures s.clients[c].phase.Reading? ==>
      && Enabled(s, ClientStep(c, Say(text)))
      && (if s.clients[c].att.None? then Enabled(s, AttachOld(c, sid, watch))
          else !s.clients[c].att.value.readOnly ==>
            Enabled(s, ClientStep(c, CheckInput)) && Enabled(s, RenameSession(c, text)))
  {
    hide Reachable, ProtocolLocks.Locked;
    LocksOf(cfg, s);
    assert ShapedClient(s, c);
  }

  // Whatever goroutines there are, the connections of a session can be
  // collected in some order.
  lemma CollectionExists(session: Session) returns (order: seq<Ref>)
    requires Disjoint(session)
    ensures IsCollection(session, order)
  {
    order := WatchersInOrder(session, session.watchers.Keys);
    assert forall r :: r in order ==> r in session.watchers.Values;
    if session.controller.Some? {
      order := [session.controller.value] + order;
    }
  }

  // What the cleanup asks about: is there anybody to collect?
  lemma ConnectedExactly(session: Session)
    requires Disjoint(session)
    ensures HasConnections(session) <==> exists ref :: Registered(session, ref)
  {
    if session.controller.Some? {
      assert Registered(session, session.controller.value);
    } else if session.watchers != map[] {
      var c :| c in session.watchers;
      assert Registered(session, session.watchers[c]);
    }
  }

  lemma {:induction false} WatchersInOrder(session: Session, keys: set<ConnId>) returns (order: seq<Ref>)
    requires Disjoint(session) && keys <= session.watchers.Keys
    ensures Distinct(order)
    ensures forall r :: r in order <==> r.conn in keys && session.watchers[r.conn] == r
    decreases keys
  {
    if keys == {} {
      order := [];
    } else {
      var c :| c in keys;
      order := WatchersInOrder(session, keys - {c});
      order := [session.watchers[c]] + order;
    }
  }

  // The step a forwarder can take, unless it waits for a mutex or is done: with
  // any data and any exit that come.
  lemma ForwardersCanMove(cfg: Config, s: State, sid: SessionId, data: seq<Utf8.byte>, info: ExitInfo)
    returns (order: seq<Ref>)
    requires Reachable(cfg, s) && sid in s.forwarders
    ensures var f := s.forwarders[sid];
      && (f.Unstarted? && CreatorDone(s, sid) ==> Enabled(s, ForwarderStep(sid, Begin)))
      && (f.Receiving? ==>
            Enabled(s, ForwarderStep(sid, Data(data, order))) && Enabled(s, ForwarderStep(sid, DataClosed)))
      && (f.Sending? ==>
            && f.todo != []
            && (if f.holding then Enabled(s, ForwarderStep(sid, Write(true)))
                else f.todo[0].serial !in s.locks ==> Enabled(s, ForwarderStep(sid, Lock))))
      && (f.AwaitingExit? ==>
            Enabled(s, ForwarderStep(sid, ProcessExit(info, order))) && Enabled(s, ForwarderStep(sid, ExitClosed)))
      && (f.Scheduling? ==> Enabled(s, ForwarderStep(sid, ScheduleExit)))
  {
    hide Reachable, ProtocolLocks.Locked, IsCollection;
    LocksOf(cfg, s);
    assert ShapedForwarder(s, sid);
    order := [];
    if Has(s.table, sid) {
      ConnectionsAreDisjoint(cfg, s, sid);
      order := CollectionExists(s.table.heap[sid]);
    }
  }
}
