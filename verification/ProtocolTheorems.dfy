// What holds in every interleaving: the invariants carried along runs, and the
// promises of the session manager read off them.

module ProtocolTheorems {
  import opened Wrappers
  import opened Utf8
  import History
  import opened SessionTable
  import opened Protocol
  import opened ProtocolShape
  import opened ProtocolControl
  import opened ProtocolLocks
  import opened ProtocolCleanup
  import opened ProtocolDelivery

  // ------------------------------------------------------------------- runs

  ghost predicate Run(cfg: Config, s: State, es: seq<Event>, s': State)
    decreases |es|
  {
    if es == [] then s' == s
    else Enabled(s, es[0]) && Run(cfg, Apply(cfg, s, es[0]), es[1..], s')
  }

  ghost predicate Reachable(cfg: Config, s: State) {
    exists es :: Run(cfg, INITIAL, es, s)
  }

  // Only the running handler of a controlling socket drives a process.
  ghost predicate InputsOwned(s: State) {
    forall i :: 0 <= i < |s.inputs| ==>
      && s.inputs[i].conn in s.clients && s.clients[s.inputs[i].conn].att.Some?
      && s.clients[s.inputs[i].conn].att.value.sid == s.inputs[i].sid
      && !s.clients[s.inputs[i].conn].att.value.readOnly
  }

  ghost predicate Inv(cfg: Config, s: State) {
    && Shaped(s) && Controlled(s) && Locked(s) && Timed(cfg, s) && AllDelivered(cfg, s)
    && InputsOwned(s)
    && (s.table.closed ==> s.table.live == {})
  }

  lemma InputsStayOwned(cfg: Config, s: State, e: Event)
    requires Shaped(s) && InputsOwned(s) && Enabled(s, e)
    ensures InputsOwned(Apply(cfg, s, e))
  {
    AttachmentsStay(cfg, s, e);
    if e.ClientStep? {
      assert ShapedClient(s, e.c);
    }
    hide StopTimer, BeginAttach, Schedule, Detach, AttachExisting, History.Replay, Concat, ClientLocks;
  }

  lemma ClosedStaysEmpty(cfg: Config, s: State, e: Event)
    requires s.table.closed && s.table.live == {} && Enabled(s, e)
    ensures Apply(cfg, s, e).table.closed && Apply(cfg, s, e).table.live == {}
  {
    hide StopTimer, BeginAttach, History.Replay, Concat, ClientLocks, MoveClient;
  }

  lemma ClosingEmpties(cfg: Config, s: State, e: Event)
    requires !s.table.closed && Enabled(s, e) && Apply(cfg, s, e).table.closed
    ensures Apply(cfg, s, e).table.live == {}
  {
    hide StopTimer, BeginAttach, Schedule, Detach, History.Replay, Concat, ClientLocks, MoveClient;
  }

  lemma InvStep(cfg: Config, s: State, e: Event)
    requires Inv(cfg, s) && Enabled(s, e)
    ensures Inv(cfg, Apply(cfg, s, e))
  {
    hide Apply, Enabled, Shaped, Controlled, Locked, Timed, AllDelivered, InputsOwned;
    ShapedStep(cfg, s, e);
    ControlledStep(cfg, s, e);
    LockedStep(cfg, s, e);
    TimedStep(cfg, s, e);
    AllDeliveredStep(cfg, s, e);
    InputsStayOwned(cfg, s, e);
    if s.table.closed {
      ClosedStaysEmpty(cfg, s, e);
    } else if Apply(cfg, s, e).table.closed {
      ClosingEmpties(cfg, s, e);
    }
  }

  lemma InitialInv(cfg: Config)
    ensures Inv(cfg, INITIAL)
  {
  }

  lemma {:induction false} InvAlongRun(cfg: Config, s: State, es: seq<Event>, s': State)
    requires Inv(cfg, s) && Run(cfg, s, es, s')
    ensures Inv(cfg, s')
    decreases |es|
  {
    hide Inv, Enabled, Apply;
    if es != [] {
      InvStep(cfg, s, es[0]);
      InvAlongRun(cfg, Apply(cfg, s, es[0]), es[1..], s');
    }
  }

  lemma ReachableInv(cfg: Config, s: State)
    requires Reachable(cfg, s)
    ensures Inv(cfg, s)
  {
    hide Inv;
    var es :| Run(cfg, INITIAL, es, s);
    InitialInv(cfg);
    InvAlongRun(cfg, INITIAL, es, s);
  }

  // --------------------------------------------------------------- delivery

  // On every socket the ready, output and exit messages are a prefix of: ready,
  // the snapshot of its attach, every chunk appended since, exit. While the
  // handler is attached and the socket works, only what is on its way is missing.
  lemma StreamIsPrefix(cfg: Config, s: State, c: ConnId)
    requires Reachable(cfg, s) && c in s.clients && s.clients[c].att.Some?
    ensures var client := s.clients[c];
            var att := client.att.value;
            && att.sid in s.table.heap && att.sid in s.forwarders && att.from <= |s.table.heap[att.sid].output|
            && att.snapshot == Concat(History.Replay(s.table.heap[att.sid].output[..att.from], cfg.max))
            && SessionMsgs(client.wire) <= Expected(s.table.heap[att.sid], att)
            && (client.open && Owes(client) ==>
                  SessionMsgs(client.wire) + Owed(client, s.forwarders[att.sid])
                  == Expected(s.table.heap[att.sid], att))
  {
    hide Inv;
    ReachableInv(cfg, s);
    DeliveredOf(cfg, s, c);
  }

  lemma DeliveredOf(cfg: Config, s: State, c: ConnId)
    requires Inv(cfg, s) && c in s.clients
    ensures Delivered(cfg, s, c)
  {
    hide Delivered, Shaped, Controlled, Locked, Timed, InputsOwned;
  }

  // A socket that never attached receives no session message at all.
  lemma SilentBeforeAttach(cfg: Config, s: State, c: ConnId)
    requires Reachable(cfg, s) && c in s.clients && s.clients[c].att.None?
    ensures SessionMsgs(s.clients[c].wire) == []
  {
    hide Inv;
    ReachableInv(cfg, s);
    DeliveredOf(cfg, s, c);
  }

  // The received terminal text.
  function Text(msgs: seq<Msg>): (text: seq<byte>) {
    if msgs == [] then []
    else Text(msgs[..|msgs| - 1]) + (if msgs[|msgs| - 1].Output? then msgs[|msgs| - 1].data else [])
  }

  lemma TextSnoc(msgs: seq<Msg>, m: Msg)
    ensures Text(msgs + [m]) == Text(msgs) + (if m.Output? then m.data else [])
  {
    assert (msgs + [m])[..|msgs|] == msgs;
  }

  lemma {:induction false} TextOfOutputs(head: seq<Msg>, chunks: seq<seq<byte>>)
    ensures Text(head + Outputs(chunks)) == Text(head) + Concat(chunks)
    decreases |chunks|
  {
    hide Text, Concat;
    if chunks == [] {
      assert head + Outputs(chunks) == head;
      assert Concat(chunks) == [] by { ConcatOfNone(); }
    } else {
      var init, last := chunks[..|chunks| - 1], chunks[|chunks| - 1];
      TextOfOutputs(head, init);
      assert chunks == init + [last];
      assert head + Outputs(chunks) == (head + Outputs(init)) + [Output(last)];
      TextSnoc(head + Outputs(init), Output(last));
      ConcatSnoc(init, last);
    }
  }

  lemma {:induction false} TextOfPrefix(p: seq<Msg>, msgs: seq<Msg>)
    requires p <= msgs
    ensures Text(p) <= Text(msgs)
    decreases |msgs|
  {
    if |p| == |msgs| {
      assert p == msgs;
    } else {
      var init := msgs[..|msgs| - 1];
      assert p <= init;
      TextOfPrefix(p, init);
    }
  }

  lemma TextOfExpected(session: Session, att: Attachment)
    requires att.from <= |session.output|
    ensures Text(Expected(session, att)) == att.snapshot + Concat(session.output[att.from..])
  {
    var live := session.output[att.from..];
    var ready := [Ready(att.sid, att.readOnly)];
    TextSnoc([], ready[0]);
    assert [] + ready == ready;
    if att.snapshot != [] {
      TextSnoc(ready, Output(att.snapshot));
    }
    assert Text(Opening(att)) == att.snapshot;
    TextOfOutputs(Opening(att), live);
    if session.exit.Some? {
      TextSnoc(Opening(att) + Outputs(live), Exit(session.exit.value));
    } else {
      assert Opening(att) + Outputs(live) + [] == Opening(att) + Outputs(live);
    }
  }

  predicate CleanBefore(cfg: Config, s: State, att: Attachment) {
    att.sid in s.table.heap && att.from <= |s.table.heap[att.sid].output| ==>
      History.AllClipCleanly(s.table.heap[att.sid].output[..att.from], cfg.max)
  }

  // If every chunk that came before the attach fits the history or is clipped
  // on a rune boundary, what a socket received is one contiguous piece of the
  // whole process output: no gap and no duplicate.
  lemma ReceivedTextIsContiguous(cfg: Config, s: State, c: ConnId) returns (start: nat)
    requires Reachable(cfg, s) && c in s.clients && s.clients[c].att.Some?
    requires CleanBefore(cfg, s, s.clients[c].att.value)
    ensures s.clients[c].att.value.sid in s.table.heap
    ensures var all := Concat(s.table.heap[s.clients[c].att.value.sid].output);
            var text := Text(SessionMsgs(s.clients[c].wire));
            start + |text| <= |all| && text == all[start..start + |text|]
  {
    hide Reachable, History.Replay, Expected, Concat, Text, SessionMsgs;
    StreamIsPrefix(cfg, s, c);
    var att := s.clients[c].att.value;
    var output := s.table.heap[att.sid].output;
    var before, since := output[..att.from], output[att.from..];
    History.DumpIsSuffixOfOutput(before, cfg.max);
    TextOfExpected(s.table.heap[att.sid], att);
    TextOfPrefix(SessionMsgs(s.clients[c].wire), Expected(s.table.heap[att.sid], att));
    assert output == before + since;
    ConcatAppend(before, since);
    start := |Concat(before)| - |att.snapshot|;
    PieceOfWhole(Concat(before), att.snapshot, Concat(since), Text(SessionMsgs(s.clients[c].wire)));
  }

  lemma PieceOfWhole(before: seq<byte>, snapshot: seq<byte>, since: seq<byte>, text: seq<byte>)
    requires History.IsSuffix(snapshot, before) && text <= snapshot + since
    ensures var start, all := |before| - |snapshot|, before + since;
            start + |text| <= |all| && text == all[start..start + |text|]
  {
    var start, all := |before| - |snapshot|, before + since;
    assert all[start..] == snapshot + since;
    assert all[start..start + |text|] == all[start..][..|text|];
  }

  // ---------------------------------------------------------------- control

  // The handler of c may reach Write, Resize and Rename of session sid.
  predicate Drives(s: State, c: ConnId, sid: SessionId) {
    && c in s.clients && Owes(s.clients[c])
    && s.clients[c].att.value.sid == sid && !s.clients[c].att.value.readOnly
  }

  lemma DriverIsController(cfg: Config, s: State, c: ConnId, sid: SessionId)
    requires Reachable(cfg, s) && Drives(s, c, sid)
    ensures sid in s.table.heap && s.table.heap[sid].controller == Some(s.clients[c].att.value.ref)
    ensures s.table.heap[sid].controller.value.conn == c
  {
    hide Inv;
    ReachableInv(cfg, s);
    RegisteredOf(cfg, s, c);
  }

  lemma RegisteredOf(cfg: Config, s: State, c: ConnId)
    requires Inv(cfg, s) && c in s.clients
    ensures ClientRegistered(s, c) && ShapedClient(s, c)
  {
    hide Locked, Timed, AllDelivered, InputsOwned;
  }

  // At most one handler drives a session, whether or not it is still in the map.
  lemma AtMostOneDriver(cfg: Config, s: State, c: ConnId, d: ConnId, sid: SessionId)
    requires Reachable(cfg, s) && Drives(s, c, sid) && Drives(s, d, sid)
    ensures c == d
  {
    hide Reachable, Drives;
    DriverIsController(cfg, s, c, sid);
    DriverIsController(cfg, s, d, sid);
  }

  // What collecting the connections of a session relies on.
  lemma ConnectionsAreDisjoint(cfg: Config, s: State, sid: SessionId)
    requires Reachable(cfg, s) && sid in s.table.heap
    ensures Disjoint(s.table.heap[sid])
  {
    hide Controlled, Locked, Timed, AllDelivered, InputsOwned;
    ReachableInv(cfg, s);
    assert ShapedSession(s, sid);
  }

  predicate DrivingStep(e: Event) {
    e.RenameSession? || (e.ClientStep? && (e.move.CheckInput? || e.move.PerformInput?))
  }

  // Whoever is about to write, resize or rename is the controller; watchers
  // never are, in any run.
  lemma OnlyTheControllerActs(cfg: Config, s: State, e: Event)
    requires Reachable(cfg, s) && Enabled(s, e) && DrivingStep(e)
    ensures s.clients[e.c].att.Some? && Drives(s, e.c, s.clients[e.c].att.value.sid)
    ensures var sid := s.clients[e.c].att.value.sid;
            sid in s.table.heap && s.table.heap[sid].controller == Some(s.clients[e.c].att.value.ref)
  {
    hide Inv;
    ReachableInv(cfg, s);
    RegisteredOf(cfg, s, e.c);
  }

  lemma EveryInputWasAllowed(cfg: Config, s: State, i: nat)
    requires Reachable(cfg, s) && i < |s.inputs|
    ensures var input := s.inputs[i];
            && input.conn in s.clients && s.clients[input.conn].att.Some?
            && s.clients[input.conn].att.value.sid == input.sid && !s.clients[input.conn].att.value.readOnly
  {
    hide Shaped, Controlled, Locked, Timed, AllDelivered;
    ReachableInv(cfg, s);
  }

  // ------------------------------------------------------------------ locks

  lemma LocksOf(cfg: Config, s: State)
    requires Reachable(cfg, s)
    ensures Shaped(s) && Locked(s)
  {
    hide Reachable, Controlled, Timed, AllDelivered, InputsOwned;
    ReachableInv(cfg, s);
  }

  // Of all goroutines at most one is in the middle of a write to a socket.
  lemma OneWriterAtATime(cfg: Config, s: State, g: Owner, h: Owner, c: ConnId)
    requires Reachable(cfg, s) && Writing(s, g, c) && Writing(s, h, c)
    ensures g == h
  {
    hide Reachable, Locked, Shaped;
    LocksOf(cfg, s);
    OneWriter(s, g, h, c);
  }

  // Whatever a step adds to a wire, its own goroutine was writing, and no
  // other one was.
  lemma OnlyItsWriterWrites(cfg: Config, s: State, e: Event, c: ConnId)
    requires Reachable(cfg, s) && Enabled(s, e) && c in s.clients
    requires c in Apply(cfg, s, e).clients && Apply(cfg, s, e).clients[c].wire != s.clients[c].wire
    ensures StepOf(e).Some? && Writing(s, StepOf(e).value, c)
    ensures forall h :: Writing(s, h, c) ==> h == StepOf(e).value
  {
    hide Reachable, Locked, Shaped, Apply, Enabled, Writing;
    LocksOf(cfg, s);
    OnlyTheWriterWrites(cfg, s, e, c);
    forall h | Writing(s, h, c) ensures h == StepOf(e).value {
      OneWriter(s, h, StepOf(e).value, c);
    }
  }

  // Every mutex that is held can be released by steps of its holder alone,
  // which waits for no mutex itself.
  lemma {:induction false} HeldMutexIsReleased(cfg: Config, s: State, k: nat) returns (es: seq<Event>, s': State)
    requires Inv(cfg, s) && k in s.locks
    ensures Run(cfg, s, es, s') && k !in s'.locks
    ensures forall i :: 0 <= i < |es| ==> StepOf(es[i]) == Some(s.locks[k])
    decreases WritesLeft(s, s.locks[k])
  {
    assert Shaped(s) && Locked(s);
    var e := WriteStep(s, s.locks[k]);
    HoldersNeverWait(cfg, s, k);
    InvStep(cfg, s, e);
    hide Apply, Enabled, Inv, Locked, Shaped, WritesLeft, WriteStep, StepOf;
    var t := Apply(cfg, s, e);
    if k in t.locks {
      var rest;
      rest, s' := HeldMutexIsReleased(cfg, t, k);
      es := [e] + rest;
      assert es[0] == e && es[1..] == rest;
    } else {
      es, s' := [e], t;
      assert Run(cfg, t, [], t) && [e][1..] == [];
    }
  }

  lemma NobodyWaitsForever(cfg: Config, s: State, k: nat) returns (es: seq<Event>, s': State)
    requires Reachable(cfg, s) && k in s.locks
    ensures forall j :: !Waits(s, s.locks[k], j)
    ensures Run(cfg, s, es, s') && k !in s'.locks
    ensures forall i :: 0 <= i < |es| ==> StepOf(es[i]) == Some(s.locks[k])
  {
    hide Inv, Locked, Shaped, Apply, Enabled, Waits, Reachable;
    ReachableInv(cfg, s);
    LocksOf(cfg, s);
    HoldersNeverWait(cfg, s, k);
    es, s' := HeldMutexIsReleased(cfg, s, k);
  }

  // Who holds a sessionConn mutex never asks for the manager lock, and the one
  // mutex taken inside it is new: nobody holds it or waits for it.
  lemma ManagerLockIsOuter(cfg: Config, s: State, e: Event, k: nat)
    requires Reachable(cfg, s) && Enabled(s, e) && EntersManager(e)
    ensures k in s.locks ==> StepOf(e) != Some(s.locks[k])
    ensures k in Apply(cfg, s, e).locks && (k !in s.locks || s.locks[k] != Apply(cfg, s, e).locks[k]) ==>
      k == s.table.nextSerial && k !in s.locks && (e.AttachOld? || e.AttachFresh?) && forall g :: !Waits(s, g, k)
  {
    hide Reachable, Locked, Shaped, Apply, Enabled, Waits;
    LocksOf(cfg, s);
    if k in s.locks {
      ManagerLockComesFirst(s, e, k);
    }
    if k in Apply(cfg, s, e).locks && (k !in s.locks || s.locks[k] != Apply(cfg, s, e).locks[k]) {
      NestedMutexIsFresh(cfg, s, e, k);
    }
  }

  // ---------------------------------------------------------------- cleanup

  lemma TimersOf(cfg: Config, s: State, key: TimerKey)
    requires Inv(cfg, s) && key in s.table.timers
    ensures TimerFits(cfg, s.table, key)
  {
    hide Shaped, Controlled, Locked, AllDelivered, InputsOwned;
  }

  // A callback, however late, removes its session exactly when the generation is
  // still its own: nobody tried to attach since it was armed. For a running
  // session the connection test is implied.
  lemma CallbackRemovesExactly(cfg: Config, s: State, key: TimerKey)
    requires Reachable(cfg, s) && key in s.table.timers
    ensures Removes(s.table, key) <==> Has(s.table, key.sid) && s.table.heap[key.sid].generation == key.generation
    ensures Removes(s.table, key) ==> s.table.timers[key].attaches == s.table.heap[key.sid].attaches
    ensures Removes(s.table, key) && s.table.heap[key.sid].exit.None? ==> !HasConnections(s.table.heap[key.sid])
    ensures Removes(s.table, key) && cfg.ttlMs <= 0 ==> s.table.heap[key.sid].exit.Some?
  {
    hide Inv;
    ReachableInv(cfg, s);
    TimersOf(cfg, s, key);
  }

  // A session leaves the map only by its callback or by Shutdown; a connected
  // running session, or any running one when the TTL is off, only by Shutdown.
  lemma WhoRemoves(cfg: Config, s: State, e: Event, sid: SessionId)
    requires Reachable(cfg, s) && Enabled(s, e)
    requires Has(s.table, sid) && sid !in Apply(cfg, s, e).table.live
    ensures e.ShutdownManager? || (e.TimerRuns? && e.key.sid == sid && Removes(s.table, e.key))
    ensures s.table.heap[sid].exit.None? && (HasConnections(s.table.heap[sid]) || cfg.ttlMs <= 0) ==> e.ShutdownManager?
  {
    assert e.ShutdownManager? || (e.TimerRuns? && e.key.sid == sid && Removes(s.table, e.key)) by {
      hide StopTimer, BeginAttach, Schedule, Detach, History.Replay, Concat, ClientLocks, MoveClient, Reachable, Run;
    }
    if e.TimerRuns? {
      hide Reachable, Apply;
      CallbackRemovesExactly(cfg, s, e.key);
    }
  }

  // Nothing leaks: with a TTL every session in the map has a connection or a
  // pending callback of its current generation; without one, so does every
  // exited session whose watchExit is over.
  lemma NoSessionIsForgotten(cfg: Config, s: State, sid: SessionId)
    requires Reachable(cfg, s) && Has(s.table, sid)
    requires cfg.ttlMs > 0 || (s.table.heap[sid].exit.Some? && sid in s.forwarders && s.forwarders[sid].Done?)
    ensures HasConnections(s.table.heap[sid]) || Pending(s.table, sid)
  {
    hide Shaped, Controlled, Locked, AllDelivered, InputsOwned;
    ReachableInv(cfg, s);
    assert Accounted(cfg, s, sid);
  }

  // ---------------------------------------------------------- after removal

  lemma FrozenStep(cfg: Config, s: State, e: Event, sid: SessionId)
    requires Enabled(s, e) && sid in s.table.heap && sid !in s.table.live
    ensures var s' := Apply(cfg, s, e);
            sid in s'.table.heap && sid !in s'.table.live && s'.table.heap[sid] == s.table.heap[sid]
  {
    LiveAfter(cfg, s, e, sid);
    hide StopTimer, BeginAttach, Schedule, Detach, History.Replay, Concat, ClientLocks, MoveClient;
  }

  // Once out of the map, no field of a session ever changes again and it never
  // comes back: the unlocked tails of cleanup and Shutdown read a fixed object.
  lemma {:induction false} RemovedIsFrozen(cfg: Config, s: State, es: seq<Event>, s': State, sid: SessionId)
    requires Run(cfg, s, es, s') && sid in s.table.heap && sid !in s.table.live
    ensures sid in s'.table.heap && sid !in s'.table.live && s'.table.heap[sid] == s.table.heap[sid]
    decreases |es|
  {
    hide Apply, Enabled;
    if es != [] {
      FrozenStep(cfg, s, es[0], sid);
      RemovedIsFrozen(cfg, Apply(cfg, s, es[0]), es[1..], s', sid);
    }
  }

  // After Shutdown the map is empty for good, whatever else is still running.
  lemma {:induction false} ShutdownIsFinal(cfg: Config, s: State, es: seq<Event>, s': State)
    requires Run(cfg, s, es, s') && s.table.closed && s.table.live == {}
    ensures s'.table.closed && s'.table.live == {}
    decreases |es|
  {
    hide Apply, Enabled;
    if es != [] {
      ClosedStaysEmpty(cfg, s, es[0]);
      ShutdownIsFinal(cfg, Apply(cfg, s, es[0]), es[1..], s');
    }
  }
}
