// What an attached socket receives: ready, the replay, every later chunk once
// and in order, then at most one exit; nothing twice, nothing skipped.

module ProtocolDelivery {
  import opened Wrappers
  import opened Utf8
  import History
  import opened SessionTable
  import opened Protocol
  import opened ProtocolShape
  import opened ProtocolControl
  import opened ProtocolLocks
  import opened ProtocolCleanup

  // The messages of a wire that belong to the session stream.
  function SessionMsgs(wire: seq<Msg>): (r: seq<Msg>) {
    if wire == [] then []
    else SessionMsgs(wire[..|wire| - 1]) + (if wire[|wire| - 1].Control? then [] else [wire[|wire| - 1]])
  }

  function Outputs(chunks: seq<seq<byte>>): (r: seq<Msg>)
    ensures |r| == |chunks| && forall i :: 0 <= i < |r| ==> r[i] == Output(chunks[i])
  {
    seq(|chunks|, i requires 0 <= i < |chunks| => Output(chunks[i]))
  }

  function ExitMsgs(exit: Option<ExitInfo>): (r: seq<Msg>) {
    if exit.Some? then [Exit(exit.value)] else []
  }

  function Opening(att: Attachment): (r: seq<Msg>) {
    [Ready(att.sid, att.readOnly)] + (if att.snapshot != [] then [Output(att.snapshot)] else [])
  }

  // Everything a socket with this attachment is ever to be sent, so far.
  function Expected(session: Session, att: Attachment): (r: seq<Msg>)
    requires att.from <= |session.output|
  {
    Opening(att) + Outputs(session.output[att.from..]) + ExitMsgs(session.exit)
  }

  // Messages on their way: the rest of the replay, and the one message the
  // forwarder has collected this socket for.
  function Owed(client: Client, f: Forwarder): (r: seq<Msg>) {
    (if client.phase.Replaying? then client.phase.todo else [])
    + (if client.att.Some? && f.Sending? && client.att.value.ref in f.todo then [f.msg] else [])
  }

  predicate Delivers(open: bool, owes: bool, got: seq<Msg>, owed: seq<Msg>, expected: seq<Msg>) {
    && got <= expected
    && (open ==> got + owed <= expected)
    && (open && owes ==> got + owed == expected)
  }

  predicate NoControl(msgs: seq<Msg>) {
    forall m :: m in msgs ==> !m.Control?
  }

  ghost predicate Delivered(cfg: Config, s: State, c: ConnId)
    requires c in s.clients
  {
    var client := s.clients[c];
    if client.att.None? then SessionMsgs(client.wire) == []
    else
      var att := client.att.value;
      && att.sid in s.table.heap && att.sid in s.forwarders
      && att.from <= |s.table.heap[att.sid].output|
      && att.snapshot == Concat(History.Replay(s.table.heap[att.sid].output[..att.from], cfg.max))
      && (client.phase.Replaying? ==> NoControl(client.phase.todo))
      && (client.phase.ReplayFailed? ==> !client.open)
      && Delivers(client.open, Owes(client), SessionMsgs(client.wire), Owed(client, s.forwarders[att.sid]),
                  Expected(s.table.heap[att.sid], att))
  }

  ghost predicate AllDelivered(cfg: Config, s: State) {
    && (forall c :: c in s.clients ==> Delivered(cfg, s, c))
    && (forall sid :: sid in s.forwarders && s.forwarders[sid].Sending? ==> !s.forwarders[sid].msg.Control?)
  }

  // ------------------------------------------------------------ small facts

  lemma SessionMsgsSnoc(wire: seq<Msg>, m: Msg)
    ensures SessionMsgs(wire + [m]) == SessionMsgs(wire) + (if m.Control? then [] else [m])
  {
    assert (wire + [m])[..|wire|] == wire;
  }

  lemma ExpectedGrows(a: Session, b: Session, att: Attachment, data: seq<byte>)
    requires att.from <= |a.output| && b.output == a.output + [data] && a.exit.None? && b.exit.None?
    ensures Expected(b, att) == Expected(a, att) + [Output(data)]
  {
    assert b.output[att.from..] == a.output[att.from..] + [data];
    assert Outputs(b.output[att.from..]) == Outputs(a.output[att.from..]) + [Output(data)];
  }

  lemma ExpectedEnds(a: Session, b: Session, att: Attachment, info: ExitInfo)
    requires att.from <= |a.output| && b.output == a.output && a.exit.None? && b.exit == Some(info)
    ensures Expected(b, att) == Expected(a, att) + [Exit(info)]
  {
  }

  lemma DeliversAfterGrowth(open: bool, owes: bool, got: seq<Msg>, replay: seq<Msg>, m: Msg, expected: seq<Msg>,
                            collected: bool)
    requires Delivers(open, owes, got, replay + [], expected) && (collected <==> owes)
    ensures Delivers(open, owes, got, replay + (if collected then [m] else []), expected + [m])
  {
    assert replay + [] == replay;
    if open && owes {
      assert got + (replay + [m]) == (got + replay) + [m];
    }
  }

  lemma DeliversAfterWrite(open: bool, owes: bool, got: seq<Msg>, m: Msg, rest: seq<Msg>, expected: seq<Msg>)
    requires Delivers(open, owes, got, [m] + rest, expected)
    ensures open ==> Delivers(open, owes, got + [m], rest, expected)
  {
    assert got + ([m] + rest) == (got + [m]) + rest;
  }

  // -------------------------------------------------- steps of its handler

  lemma ReplayWriteFails(cfg: Config, s: State, c: ConnId, ok: bool)
    requires AllDelivered(cfg, s) && Enabled(s, ClientStep(c, ReplayWrite(ok))) && !(s.clients[c].open && ok)
    ensures Delivered(cfg, Apply(cfg, s, ClientStep(c, ReplayWrite(ok))), c)
  {
    assert Delivered(cfg, s, c);
    hide AllDelivered, ClientLocks, History.Replay, Concat, Expected, SessionMsgs, Owed;
  }

  // The first message of the replay is written, on values.
  lemma ReplayedOne(t: Table, c: ConnId, client: Client, f: Forwarder, expected: seq<Msg>)
    requires client.phase.Replaying? && client.phase.todo != [] && NoControl(client.phase.todo)
    requires client.open && client.att.Some?
    requires Delivers(true, Owes(client), SessionMsgs(client.wire), Owed(client, f), expected)
    ensures var client' := MoveClient(t, c, client, ReplayWrite(true));
      && client'.att == client.att && !client'.phase.ReplayFailed?
      && (client'.phase.Replaying? ==> NoControl(client'.phase.todo))
      && Delivers(client'.open, Owes(client'), SessionMsgs(client'.wire), Owed(client', f), expected)
  {
    hide SessionMsgs, Delivers;
    var todo, got := client.phase.todo, SessionMsgs(client.wire);
    var live := if f.Sending? && client.att.value.ref in f.todo then [f.msg] else [];
    assert todo[0] in todo;
    SessionMsgsSnoc(client.wire, todo[0]);
    assert todo + live == [todo[0]] + (todo[1..] + live);
    DeliversAfterWrite(true, Owes(client), got, todo[0], todo[1..] + live, expected);
    assert Owed(MoveClient(t, c, client, ReplayWrite(true)), f) == todo[1..] + live;
  }

  lemma ReplayWriteArrives(cfg: Config, s: State, c: ConnId)
    requires AllDelivered(cfg, s) && Enabled(s, ClientStep(c, ReplayWrite(true))) && s.clients[c].open
    ensures Delivered(cfg, Apply(cfg, s, ClientStep(c, ReplayWrite(true))), c)
  {
    assert Delivered(cfg, s, c);
    hide AllDelivered, ClientLocks, MoveClient, History.Replay, Concat;
    hide Expected, SessionMsgs, Owed, Owes, Delivers, NoControl;
    var att := s.clients[c].att.value;
    ReplayedOne(s.table, c, s.clients[c], s.forwarders[att.sid], Expected(s.table.heap[att.sid], att));
  }

  lemma DeliveredAfterReplayWrite(cfg: Config, s: State, c: ConnId, ok: bool)
    requires Shaped(s) && AllDelivered(cfg, s) && Enabled(s, ClientStep(c, ReplayWrite(ok)))
    ensures Delivered(cfg, Apply(cfg, s, ClientStep(c, ReplayWrite(ok))), c)
  {
    hide Apply, AllDelivered, Delivered;
    if s.clients[c].open && ok {
      ReplayWriteArrives(cfg, s, c);
    } else {
      ReplayWriteFails(cfg, s, c, ok);
    }
  }

  // Nothing about c's stream moved, except that it may have been cut off.
  predicate Unmoved(a: Client, f: Forwarder, b: Client, g: Forwarder) {
    && b.att == a.att
    && SessionMsgs(b.wire) == SessionMsgs(a.wire)
    && (b.open ==> a.open) && (Owes(b) ==> Owes(a))
    && (b.phase.ReplayFailed? ==> a.phase.ReplayFailed?)
    && (b.phase.Replaying? <==> a.phase.Replaying?)
    && (b.phase.Replaying? ==> b.phase.todo == a.phase.todo)
    && Owed(b, g) == Owed(a, f)
  }

  predicate SameStream(a: Session, b: Session) {
    b.output == a.output && b.exit == a.exit
  }

  lemma DeliveredUnmoved(cfg: Config, s: State, s': State, c: ConnId)
    requires c in s.clients && c in s'.clients && Delivered(cfg, s, c) && s.clients[c].att.Some?
    requires var sid := s.clients[c].att.value.sid;
             && sid in s.table.heap && sid in s'.table.heap && SameStream(s.table.heap[sid], s'.table.heap[sid])
             && sid in s.forwarders && sid in s'.forwarders
             && Unmoved(s.clients[c], s.forwarders[sid], s'.clients[c], s'.forwarders[sid])
    ensures Delivered(cfg, s', c)
  {
    hide History.Replay, Concat, Outputs;
  }

  lemma MoveUnmoved(t: Table, c: ConnId, client: Client, move: ClientMove, f: Forwarder, locks: map<nat, Owner>)
    requires ClientCan(locks, client, move) && PhaseFits(client) && !move.ReplayWrite?
    ensures Unmoved(client, f, MoveClient(t, c, client, move), f)
  {
    hide SessionMsgs;
    if move.DirectWrite? || move.SendWrite? {
      SessionMsgsSnoc(client.wire, Control(client.phase.text));
    }
  }

  lemma OwnStepUnmoved(cfg: Config, s: State, c: ConnId, move: ClientMove, f: Forwarder)
    requires Shaped(s) && Enabled(s, ClientStep(c, move)) && !move.ReplayWrite?
    ensures Unmoved(s.clients[c], f, Apply(cfg, s, ClientStep(c, move)).clients[c], f)
  {
    assert ShapedClient(s, c);
    hide Shaped, ClientLocks, MoveClient, Unmoved;
    MoveUnmoved(s.table, c, s.clients[c], move, f, s.locks);
  }

  lemma DeliveredAfterOwnStep(cfg: Config, s: State, c: ConnId, move: ClientMove)
    requires Shaped(s) && AllDelivered(cfg, s) && Enabled(s, ClientStep(c, move)) && !move.ReplayWrite?
    ensures Delivered(cfg, Apply(cfg, s, ClientStep(c, move)), c)
  {
    hide ClientLocks, MoveClient, History.Replay, Concat, Expected;
    assert Delivered(cfg, s, c);
    OwnStepUnmoved(cfg, s, c, move, Done);
    if s.clients[c].att.Some? {
      OwnStepUnmoved(cfg, s, c, move, s.forwarders[s.clients[c].att.value.sid]);
      DeliveredUnmoved(cfg, s, Apply(cfg, s, ClientStep(c, move)), c);
    }
  }

  // ---------------------------------------------------- steps of the forwarder

  // Being collected is exactly being attached.
  lemma CollectedIsAttached(s: State, c: ConnId, order: seq<Ref>)
    requires Shaped(s) && Controlled(s) && c in s.clients && s.clients[c].att.Some?
    requires Has(s.table, s.clients[c].att.value.sid)
    requires IsCollection(s.table.heap[s.clients[c].att.value.sid], order)
    ensures s.clients[c].att.value.ref in order <==> Owes(s.clients[c])
  {
    var att := s.clients[c].att.value;
    assert ShapedClient(s, c) && ClientRegistered(s, c) && SessionOwned(s, att.sid) && ShapedSession(s, att.sid);
    assert att.ref in order <==> Registered(s.table.heap[att.sid], att.ref);
  }

  lemma DeliveredAfterCollect(cfg: Config, s: State, sid: SessionId, step: ForwarderMove, c: ConnId)
    requires Shaped(s) && Controlled(s) && Timed(cfg, s) && AllDelivered(cfg, s)
    requires Enabled(s, ForwarderStep(sid, step)) && (step.Data? || step.ProcessExit?) && Has(s.table, sid)
    requires c in s.clients && s.clients[c].att.Some? && s.clients[c].att.value.sid == sid
    ensures Delivered(cfg, Apply(cfg, s, ForwarderStep(sid, step)), c)
  {
    hide History.Replay, Concat, Expected, IsCollection;
    var s' := Apply(cfg, s, ForwarderStep(sid, step));
    var client, f, a, b := s.clients[c], s.forwarders[sid], s.table.heap[sid], s'.table.heap[sid];
    var att := client.att.value;
    assert Delivered(cfg, s, c) && ExitInOrder(s, sid);
    CollectedIsAttached(s, c, step.order);
    var replay := if client.phase.Replaying? then client.phase.todo else [];
    var m := if step.Data? then Output(step.data) else Exit(step.info);
    assert Owed(client, f) == replay + [];
    if step.Data? {
      ExpectedGrows(a, b, att, step.data);
      assert b.output[..att.from] == a.output[..att.from];
    } else {
      ExpectedEnds(a, b, att, step.info);
    }
    DeliversAfterGrowth(client.open, Owes(client), SessionMsgs(client.wire), replay, m, Expected(a, att), Owes(client));
    assert Owed(client, s'.forwarders[sid]) == replay + (if Owes(client) then [m] else []);
  }

  lemma DeliveredToTarget(cfg: Config, s: State, sid: SessionId, ok: bool, c: ConnId)
    requires Shaped(s) && Locked(s) && AllDelivered(cfg, s)
    requires Enabled(s, ForwarderStep(sid, Write(ok))) && s.forwarders[sid].todo[0].conn == c
    ensures c in s.clients && Delivered(cfg, Apply(cfg, s, ForwarderStep(sid, Write(ok))), c)
  {
    hide History.Replay, Concat, Expected, ForwarderLocks;
    var s' := Apply(cfg, s, ForwarderStep(sid, Write(ok)));
    var f := s.forwarders[sid];
    var ref := f.todo[0];
    assert ShapedForwarder(s, sid) && ref in f.todo;
    var client, client' := s.clients[c], s'.clients[c];
    var att := client.att.value;
    assert att.sid == sid && att.ref == ref;
    assert Delivered(cfg, s, c);
    // the forwarder is inside the mutex, so the handler is not replaying
    assert Inside(s, ForwarderOf(sid), ref.serial);
    assert client.phase.Replaying? ==> Inside(s, HandlerOf(c), ref.serial);
    assert ref !in f.todo[1..];
    assert Owed(client', s'.forwarders[sid]) == [];
    assert Owed(client, f) == [f.msg] + [];
    if client.open && ok {
      SessionMsgsSnoc(client.wire, f.msg);
      DeliversAfterWrite(true, Owes(client), SessionMsgs(client.wire), f.msg, [], Expected(s.table.heap[sid], att));
    }
  }

  // The forwarder's step passes c by.
  lemma PassedBy(cfg: Config, s: State, sid: SessionId, step: ForwarderMove, c: ConnId)
    requires Shaped(s) && Controlled(s) && Timed(cfg, s) && AllDelivered(cfg, s)
    requires Enabled(s, ForwarderStep(sid, step)) && c in s.clients && s.clients[c].att.Some?
    requires step.Write? ==> s.forwarders[sid].todo[0].conn != c
    requires (step.Data? || step.ProcessExit?) && Has(s.table, sid) ==> s.clients[c].att.value.sid != sid
    ensures Delivered(cfg, Apply(cfg, s, ForwarderStep(sid, step)), c)
  {
    hide History.Replay, Concat, Expected, ForwarderLocks, Schedule, IsCollection;
    var s' := Apply(cfg, s, ForwarderStep(sid, step));
    var client := s.clients[c];
    var att := client.att.value;
    assert Delivered(cfg, s, c) && ShapedForwarder(s, sid) && ShapedClient(s, c);
    var f, f' := s.forwarders[sid], s'.forwarders[sid];
    if step.Write? {
      assert f.todo == [f.todo[0]] + f.todo[1..];
      assert att.ref in f.todo <==> att.ref in f.todo[1..];
    }
    assert s'.clients[c] == client;
    assert att.sid == sid ==> Owed(client, f') == Owed(client, f);
    DeliveredUnmoved(cfg, s, s', c);
  }

  lemma DeliveredAfterForwarderStep(cfg: Config, s: State, sid: SessionId, step: ForwarderMove, c: ConnId)
    requires Shaped(s) && Controlled(s) && Timed(cfg, s) && Locked(s) && AllDelivered(cfg, s)
    requires Enabled(s, ForwarderStep(sid, step)) && c in s.clients
    ensures Delivered(cfg, Apply(cfg, s, ForwarderStep(sid, step)), c)
  {
    if s.clients[c].att.None? {
      hide History.Replay, Concat, Expected, ForwarderLocks, Schedule, IsCollection;
      assert Delivered(cfg, s, c) && ShapedForwarder(s, sid);
      assert step.Write? ==> s.forwarders[sid].todo[0] in s.forwarders[sid].todo;
      assert Apply(cfg, s, ForwarderStep(sid, step)).clients[c] == s.clients[c];
    } else {
      hide Apply, IsCollection;
      if step.Write? && s.forwarders[sid].todo[0].conn == c {
        DeliveredToTarget(cfg, s, sid, step.ok, c);
      } else if (step.Data? || step.ProcessExit?) && Has(s.table, sid) && s.clients[c].att.value.sid == sid {
        DeliveredAfterCollect(cfg, s, sid, step, c);
      } else {
        PassedBy(cfg, s, sid, step, c);
      }
    }
  }

  // ------------------------------------------------- attaching and detaching

  lemma SnapshotTaken(cfg: Config, s: State, e: Event)
    requires Shaped(s) && Enabled(s, e) && (e.AttachOld? || e.AttachFresh?)
    requires e.c in Apply(cfg, s, e).clients && Apply(cfg, s, e).clients[e.c].att.Some?
    ensures var s' := Apply(cfg, s, e);
            var att := s'.clients[e.c].att.value;
            && att.sid == e.sid && e.sid in s'.table.heap && e.sid in s'.forwarders
            && s'.clients[e.c].wire == s.clients[e.c].wire
            && s'.clients[e.c].phase.Replaying?
            && s'.clients[e.c].phase.todo == Opening(att) + ExitMsgs(s'.table.heap[e.sid].exit)
            && att.from == |s'.table.heap[e.sid].output|
            && att.snapshot == Concat(History.Replay(s'.table.heap[e.sid].output, cfg.max))
            && att.ref.serial == s.table.nextSerial
            && (e.sid in s.forwarders && e.sid in s.table.heap ==> s'.forwarders[e.sid] == s.forwarders[e.sid])
            && (e.sid !in s.table.heap ==> s'.forwarders[e.sid].Unstarted?)
  {
    hide StopTimer;
  }

  lemma DeliveredOnAttach(cfg: Config, s: State, e: Event)
    requires Shaped(s) && AllDelivered(cfg, s) && Enabled(s, e) && (e.AttachOld? || e.AttachFresh?)
    requires e.c in Apply(cfg, s, e).clients && Apply(cfg, s, e).clients[e.c].att.Some?
    ensures Delivered(cfg, Apply(cfg, s, e), e.c)
  {
    SnapshotTaken(cfg, s, e);
    assert Delivered(cfg, s, e.c) && s.clients[e.c].att.None?;
    hide Apply, History.Replay, Concat, SessionMsgs;
    var s' := Apply(cfg, s, e);
    NobodyCollected(s, e.sid, s'.clients[e.c].att.value.ref);
    FreshDelivers(cfg, s', e.c, e.sid);
  }

  // Nobody can have collected a brand new sessionConn.
  lemma NobodyCollected(s: State, sid: SessionId, ref: Ref)
    requires Shaped(s) && ref.serial == s.table.nextSerial
    ensures sid in s.forwarders && s.forwarders[sid].Sending? ==> ref !in s.forwarders[sid].todo
  {
    if sid in s.forwarders && s.forwarders[sid].Sending? {
      assert ShapedForwarder(s, sid);
      forall r | r in s.forwarders[sid].todo ensures r != ref {
        assert ShapedClient(s, r.conn);
      }
    }
  }

  lemma FreshDelivers(cfg: Config, s: State, c: ConnId, sid: SessionId)
    requires c in s.clients && s.clients[c].att.Some? && sid in s.table.heap && sid in s.forwarders
    requires var client, session, f := s.clients[c], s.table.heap[sid], s.forwarders[sid];
             var att := client.att.value;
             && att.sid == sid && SessionMsgs(client.wire) == []
             && client.phase.Replaying? && client.phase.todo == Opening(att) + ExitMsgs(session.exit)
             && att.from == |session.output| && att.snapshot == Concat(History.Replay(session.output, cfg.max))
             && (f.Sending? ==> att.ref !in f.todo)
    ensures Delivered(cfg, s, c)
  {
    hide History.Replay, Concat, SessionMsgs;
    var client, session, f := s.clients[c], s.table.heap[sid], s.forwarders[sid];
    var att := client.att.value;
    assert session.output[att.from..] == [];
    assert session.output[..att.from] == session.output;
    assert Outputs([]) == [];
    assert Expected(session, att) == client.phase.todo;
    assert Owed(client, f) == client.phase.todo;
  }

  // Every other event leaves c's stream alone.
  predicate Elsewhere(e: Event, c: ConnId) {
    && !e.ForwarderStep? && (e.ClientStep? ==> e.c != c)
    && (e.AttachOld? || e.AttachFresh? || e.Connect? ==> e.c != c)
  }

  lemma ElsewhereUnmoved(cfg: Config, s: State, e: Event, c: ConnId, f: Forwarder)
    requires Enabled(s, e) && Elsewhere(e, c) && c in s.clients
    ensures c in Apply(cfg, s, e).clients && Unmoved(s.clients[c], f, Apply(cfg, s, e).clients[c], f)
  {
    hide StopTimer, BeginAttach, Schedule, Detach, AttachExisting, History.Replay, Concat, ClientLocks, MoveClient;
  }

  ghost predicate SameStreamAt(s: State, s': State, sid: SessionId)
    requires sid in s.table.heap && sid in s.forwarders
  {
    && sid in s'.table.heap && SameStream(s.table.heap[sid], s'.table.heap[sid])
    && sid in s'.forwarders && s'.forwarders[sid] == s.forwarders[sid]
  }

  lemma SameStreamAfterAttach(cfg: Config, s: State, e: Event, sid: SessionId)
    requires Enabled(s, e) && (e.AttachOld? || e.AttachFresh?) && sid in s.table.heap && sid in s.forwarders
    ensures SameStreamAt(s, Apply(cfg, s, e), sid)
  {
    hide AttachExisting;
    if e.AttachOld? {
      AttachKeepsSessions(s.table, cfg.max, e.sid, e.c, e.watch, sid);
    }
  }

  lemma SameStreamElsewhere(cfg: Config, s: State, e: Event, sid: SessionId)
    requires Shaped(s) && Enabled(s, e) && !e.ForwarderStep? && sid in s.table.heap
    ensures SameStreamAt(s, Apply(cfg, s, e), sid)
  {
    assert s.forwarders.Keys == s.table.heap.Keys;
    hide Shaped;
    if e.AttachOld? || e.AttachFresh? {
      hide Apply, Enabled;
      SameStreamAfterAttach(cfg, s, e, sid);
    } else {
      hide StopTimer, Schedule, Detach, ClientLocks, MoveClient, ForwarderCan;
      assert SameStreamAt(s, Apply(cfg, s, e), sid);
    }
  }

  lemma DeliveredElsewhere(cfg: Config, s: State, e: Event, c: ConnId)
    requires Shaped(s) && AllDelivered(cfg, s) && Enabled(s, e) && Elsewhere(e, c) && c in s.clients
    ensures c in Apply(cfg, s, e).clients && Delivered(cfg, Apply(cfg, s, e), c)
  {
    hide Apply, Enabled, History.Replay, Concat, Expected;
    assert Delivered(cfg, s, c) && ShapedClient(s, c);
    ElsewhereUnmoved(cfg, s, e, c, Done);
    if s.clients[c].att.Some? {
      var sid := s.clients[c].att.value.sid;
      ElsewhereUnmoved(cfg, s, e, c, s.forwarders[sid]);
      SameStreamElsewhere(cfg, s, e, sid);
      DeliveredUnmoved(cfg, s, Apply(cfg, s, e), c);
    }
  }

  lemma DeliveredAfter(cfg: Config, s: State, e: Event, c: ConnId)
    requires Shaped(s) && Controlled(s) && Timed(cfg, s) && Locked(s) && AllDelivered(cfg, s) && Enabled(s, e)
    requires c in Apply(cfg, s, e).clients
    ensures Delivered(cfg, Apply(cfg, s, e), c)
  {
    if c !in s.clients {
      NewClientIsSilent(cfg, s, e, c);
    } else if Elsewhere(e, c) {
      hide Apply, Enabled;
      DeliveredElsewhere(cfg, s, e, c);
    } else {
      hide History.Replay, Concat, StopTimer, BeginAttach, Schedule, MoveClient, Expected, Enabled;
      match e
      case ForwarderStep(sid, step) => DeliveredAfterForwarderStep(cfg, s, sid, step, c);
      case ClientStep(_, ReplayWrite(ok)) => DeliveredAfterReplayWrite(cfg, s, c, ok);
      case ClientStep(_, move) => DeliveredAfterOwnStep(cfg, s, c, move);
      case Connect(_) =>
      case AttachOld(_, _, _) =>
        if Apply(cfg, s, e).clients[c].att.Some? {
          DeliveredOnAttach(cfg, s, e);
        } else {
          assert Delivered(cfg, s, c);
        }
      case AttachFresh(_, _, _) =>
        if Apply(cfg, s, e).clients[c].att.Some? {
          DeliveredOnAttach(cfg, s, e);
        } else {
          assert Delivered(cfg, s, c);
        }
    }
  }

  lemma NewClientIsSilent(cfg: Config, s: State, e: Event, c: ConnId)
    requires Enabled(s, e) && c !in s.clients && c in Apply(cfg, s, e).clients
    ensures Apply(cfg, s, e).clients[c].att.None? && Apply(cfg, s, e).clients[c].wire == []
  {
    hide StopTimer, BeginAttach, Schedule, Detach, AttachExisting, History.Replay, Concat, ClientLocks, MoveClient;
  }

  lemma AllDeliveredStep(cfg: Config, s: State, e: Event)
    requires Shaped(s) && Controlled(s) && Timed(cfg, s) && Locked(s) && AllDelivered(cfg, s) && Enabled(s, e)
    ensures AllDelivered(cfg, Apply(cfg, s, e))
  {
    forall c | c in Apply(cfg, s, e).clients ensures Delivered(cfg, Apply(cfg, s, e), c) {
      hide Apply, Enabled;
      DeliveredAfter(cfg, s, e, c);
    }
    hide StopTimer, BeginAttach, Schedule, Detach, AttachExisting;
    hide History.Replay, Concat, ClientLocks, MoveClient, Delivered;
  }
}
