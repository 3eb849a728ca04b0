// The basic shape of the protocol state is kept by every step.

module ProtocolShape {
  import opened Wrappers
  import Utf8
  import History
  import opened SessionTable
  import opened Protocol

  ghost predicate AttachmentsKept(s: State, s': State) {
    forall c :: c in s.clients ==>
      c in s'.clients && (s.clients[c].att.Some? ==> s'.clients[c].att == s.clients[c].att)
  }

  lemma AttachmentsStay(cfg: Config, s: State, e: Event)
    requires Enabled(s, e)
    ensures AttachmentsKept(s, Apply(cfg, s, e))
  {
  }

  lemma HoldsStays(cfg: Config, s: State, e: Event)
    requires Enabled(s, e)
    ensures forall sid, ref, ro :: Holds(s, sid, ref, ro) ==> Holds(Apply(cfg, s, e), sid, ref, ro)
  {
    AttachmentsStay(cfg, s, e);
  }

  // What an attach to an existing session leaves of every session.
  lemma AttachKeepsSessions(t: Table, max: nat, x: SessionId, conn: ConnId, watch: bool, sid: SessionId)
    requires sid in t.heap
    ensures var t' := AttachExisting(t, max, x, conn, watch).0;
      && sid in t'.heap && t'.heap[sid].output == t.heap[sid].output && t'.heap[sid].exit == t.heap[sid].exit
      && t'.heap[sid].name == t.heap[sid].name
  {
    hide StopTimer, History.Replay, Utf8.Concat;
  }

  lemma AttachTakesSerial(t: Table, max: nat, x: SessionId, conn: ConnId, watch: bool)
    ensures t.nextSerial <= AttachExisting(t, max, x, conn, watch).0.nextSerial
  {
    hide StopTimer, History.Replay, Utf8.Concat;
  }

  lemma TableGrows(cfg: Config, s: State, e: Event, sid: SessionId)
    requires Enabled(s, e)
    ensures s.table.nextSerial <= Apply(cfg, s, e).table.nextSerial
    ensures sid in s.table.heap ==>
      sid in Apply(cfg, s, e).table.heap && s.table.heap[sid].output <= Apply(cfg, s, e).table.heap[sid].output
  {
    hide StopTimer, Schedule, Detach, AttachExisting;
    hide MoveClient, ClientLocks, MoveForwarder, ForwarderLocks;
    if e.AttachOld? {
      AttachTakesSerial(s.table, cfg.max, e.sid, e.c, e.watch);
      if sid in s.table.heap {
        AttachKeepsSessions(s.table, cfg.max, e.sid, e.c, e.watch, sid);
      }
    }
  }

  lemma PhaseAfterOwnStep(cfg: Config, s: State, c: ConnId, move: ClientMove)
    requires Shaped(s) && Enabled(s, ClientStep(c, move))
    ensures PhaseFits(Apply(cfg, s, ClientStep(c, move)).clients[c])
  {
    assert ShapedClient(s, c);
    if s.clients[c].att.Some? {
      assert ShapedSession(s, s.clients[c].att.value.sid);
    }
    hide Shaped, ClientLocks;
  }

  lemma PhaseAfterAttach(cfg: Config, s: State, e: Event, c: ConnId)
    requires Enabled(s, e) && (e.AttachOld? || e.AttachFresh?)
    requires c in s.clients && PhaseFits(s.clients[c])
    ensures PhaseFits(Apply(cfg, s, e).clients[c])
  {
    hide AttachExisting, AttachNew;
  }

  lemma PhaseStaysFit(cfg: Config, s: State, e: Event, c: ConnId)
    requires Shaped(s) && Enabled(s, e) && c in Apply(cfg, s, e).clients
    ensures PhaseFits(Apply(cfg, s, e).clients[c])
  {
    assert c in s.clients ==> ShapedClient(s, c);
    hide Shaped, Detach, ForwarderTable, MoveClient, ClientLocks, AttachExisting, AttachNew, IsCollection, CreatorDone;
    if e.ClientStep? && e.c == c {
      PhaseAfterOwnStep(cfg, s, c, e.move);
    } else if e.AttachOld? || e.AttachFresh? {
      hide PhaseFits;
      PhaseAfterAttach(cfg, s, e, c);
    }
  }

  lemma NewAttachmentFits(cfg: Config, s: State, e: Event, c: ConnId)
    requires Enabled(s, e) && c in s.clients && s.clients[c].att.None?
    ensures var s' := Apply(cfg, s, e);
            c in s'.clients && s'.clients[c].att.Some? ==> AttachmentFits(s', c, s'.clients[c].att.value)
  {
  }

  lemma ShapedClients(cfg: Config, s: State, e: Event, c: ConnId)
    requires Shaped(s) && Enabled(s, e) && c in Apply(cfg, s, e).clients
    ensures ShapedClient(Apply(cfg, s, e), c)
  {
    PhaseStaysFit(cfg, s, e, c);
    if c in s.clients {
      assert ShapedClient(s, c);
      if s.clients[c].att.Some? {
        AttachmentsStay(cfg, s, e);
        TableGrows(cfg, s, e, s.clients[c].att.value.sid);
      } else {
        NewAttachmentFits(cfg, s, e, c);
      }
    }
  }

  lemma ShapedForwarders(cfg: Config, s: State, e: Event, sid: SessionId)
    requires Shaped(s) && Enabled(s, e) && sid in Apply(cfg, s, e).forwarders
    ensures ShapedForwarder(Apply(cfg, s, e), sid)
  {
    HoldsStays(cfg, s, e);
    assert sid in s.forwarders ==> ShapedForwarder(s, sid) && ShapedSession(s, sid);
  }

  // --------------------------- what one step does to the connections of a session

  // The handler is attached and has not run its Detach yet.
  predicate Owes(client: Client) {
    client.att.Some? && !client.phase.Closing? && !client.phase.Gone?
  }

  predicate SameConnections(a: Session, b: Session) {
    a.controller == b.controller && a.watchers == b.watchers
  }

  predicate RegisteredAs(session: Session, c: ConnId, att: Attachment) {
    if att.readOnly then c in session.watchers && session.watchers[c] == att.ref
    else session.controller == Some(att.ref)
  }

  // Step e let its socket into session sid.
  ghost predicate Admits(s: State, e: Event, s': State, sid: SessionId) {
    && (e.AttachOld? || e.AttachFresh?) && e.sid == sid
    && e.c in s.clients && s.clients[e.c].att.None?
    && e.c in s'.clients && Owes(s'.clients[e.c])
    && s'.clients[e.c].att.value.sid == sid && s'.clients[e.c].att.value.ref == Ref(e.c, s.table.nextSerial)
  }

  ghost predicate Releases(s: State, e: Event, sid: SessionId) {
    && e.DetachClient? && e.c in s.clients
    && s.clients[e.c].att.Some? && s.clients[e.c].att.value.sid == sid
    && Has(s.table, sid)
  }

  ghost predicate Joined(s: State, s': State, sid: SessionId, c: ConnId)
    requires c in s'.clients && s'.clients[c].att.Some? && sid in s'.table.heap
  {
    var att := s'.clients[c].att.value;
    var a := if sid in s.table.heap then s.table.heap[sid] else NewSession(att.ref);
    var b := s'.table.heap[sid];
    && RegisteredAs(b, c, att)
    && (if att.readOnly then
          sid in s.table.heap && b.controller == a.controller && b.watchers == a.watchers[c := att.ref]
        else
          b.watchers == a.watchers && (a.controller.Some? ==> a.controller.value.conn == c))
  }

  ghost predicate ConnectionsChange(s: State, e: Event, s': State, sid: SessionId)
    requires sid in s'.table.heap
  {
    if Admits(s, e, s', sid) then Joined(s, s', sid, e.c)
    else
      && sid in s.table.heap
      && SameConnections(if Releases(s, e, sid) then Forget(s.table.heap[sid], e.c) else s.table.heap[sid],
                         s'.table.heap[sid])
  }

  lemma AttachOldChanges(cfg: Config, s: State, e: Event, sid: SessionId)
    requires Enabled(s, e) && e.AttachOld? && sid in Apply(cfg, s, e).table.heap
    ensures ConnectionsChange(s, e, Apply(cfg, s, e), sid)
  {
    hide StopTimer, BeginAttach, History.Replay, Utf8.Concat;
  }

  lemma AttachFreshChanges(cfg: Config, s: State, e: Event, sid: SessionId)
    requires Enabled(s, e) && e.AttachFresh? && sid in Apply(cfg, s, e).table.heap
    ensures ConnectionsChange(s, e, Apply(cfg, s, e), sid)
  {
  }

  lemma DetachChanges(cfg: Config, s: State, c: ConnId, sid: SessionId)
    requires Enabled(s, DetachClient(c)) && sid in Apply(cfg, s, DetachClient(c)).table.heap
    ensures ConnectionsChange(s, DetachClient(c), Apply(cfg, s, DetachClient(c)), sid)
  {
    hide Detach;
  }

  lemma OtherChanges(cfg: Config, s: State, e: Event, sid: SessionId)
    requires Enabled(s, e) && !e.AttachOld? && !e.AttachFresh? && !e.DetachClient?
    requires sid in Apply(cfg, s, e).table.heap
    ensures ConnectionsChange(s, e, Apply(cfg, s, e), sid)
  {
    hide StopTimer, Schedule;
    hide MoveClient, ClientLocks, MoveForwarder, ForwarderLocks;
  }

  lemma ConnectionsAfter(cfg: Config, s: State, e: Event, sid: SessionId)
    requires Enabled(s, e) && sid in Apply(cfg, s, e).table.heap
    ensures ConnectionsChange(s, e, Apply(cfg, s, e), sid)
  {
    match e
    case AttachOld(_, _, _) => AttachOldChanges(cfg, s, e, sid);
    case AttachFresh(_, _, _) => AttachFreshChanges(cfg, s, e, sid);
    case DetachClient(c) => DetachChanges(cfg, s, c, sid);
    case _ => OtherChanges(cfg, s, e, sid);
  }

  ghost predicate ClientChange(s: State, e: Event, s': State, c: ConnId)
    requires c in s'.clients
  {
    if c !in s.clients then s'.clients[c].att.None?
    else if s.clients[c].att.None? && s'.clients[c].att.Some? then
      (e.AttachOld? || e.AttachFresh?) && e.c == c && Admits(s, e, s', s'.clients[c].att.value.sid)
    else
      && s'.clients[c].att == s.clients[c].att
      && (Owes(s'.clients[c]) <==> Owes(s.clients[c]) && e != DetachClient(c))
  }

  lemma ClientAfter(cfg: Config, s: State, e: Event, c: ConnId)
    requires Enabled(s, e) && c in Apply(cfg, s, e).clients
    ensures ClientChange(s, e, Apply(cfg, s, e), c)
  {
    hide StopTimer, BeginAttach, Schedule, Detach, History.Replay, Utf8.Concat;
    hide ClientLocks, MoveForwarder, ForwarderLocks;
  }

  // Nothing comes back into the table.
  lemma LiveAfter(cfg: Config, s: State, e: Event, sid: SessionId)
    requires Enabled(s, e)
    ensures sid in s.table.heap && sid in Apply(cfg, s, e).table.live ==> sid in s.table.live
    ensures sid in Apply(cfg, s, e).table.live && !e.AttachFresh? ==> sid in s.table.live
  {
    hide StopTimer, BeginAttach, Schedule, Detach, History.Replay, Utf8.Concat;
    hide MoveClient, ClientLocks, MoveForwarder, ForwarderLocks;
  }

  lemma ShapedAfterChange(s: State, e: Event, s': State, sid: SessionId)
    requires sid in s'.table.heap && ConnectionsChange(s, e, s', sid)
    requires sid in s.table.heap ==> ShapedSession(s, sid)
    requires forall sid, ref, ro :: Holds(s, sid, ref, ro) ==> Holds(s', sid, ref, ro)
    ensures ShapedSession(s', sid)
  {
  }

  lemma ShapedSessions(cfg: Config, s: State, e: Event, sid: SessionId)
    requires Shaped(s) && Enabled(s, e) && sid in Apply(cfg, s, e).table.heap
    ensures ShapedSession(Apply(cfg, s, e), sid)
  {
    hide Apply, Enabled;
    HoldsStays(cfg, s, e);
    ConnectionsAfter(cfg, s, e, sid);
    ShapedAfterChange(s, e, Apply(cfg, s, e), sid);
  }

  lemma ShapedKeys(cfg: Config, s: State, e: Event)
    requires s.table.live <= s.table.heap.Keys && s.forwarders.Keys == s.table.heap.Keys && Enabled(s, e)
    ensures var s' := Apply(cfg, s, e);
            s'.table.live <= s'.table.heap.Keys && s'.forwarders.Keys == s'.table.heap.Keys
  {
    hide StopTimer, BeginAttach, Schedule, Detach, History.Replay, Utf8.Concat;
    hide MoveClient, ClientLocks, MoveForwarder, ForwarderLocks;
  }

  lemma ShapedStep(cfg: Config, s: State, e: Event)
    requires Shaped(s) && Enabled(s, e)
    ensures Shaped(Apply(cfg, s, e))
  {
    var s' := Apply(cfg, s, e);
    assert s'.table.live <= s'.table.heap.Keys && s'.forwarders.Keys == s'.table.heap.Keys by {
      ShapedKeys(cfg, s, e);
    }
    hide Apply, Enabled;
    forall c | c in s'.clients ensures ShapedClient(s', c) {
      ShapedClients(cfg, s, e, c);
    }
    forall sid | sid in s'.forwarders ensures ShapedForwarder(s', sid) {
      ShapedForwarders(cfg, s, e, sid);
    }
    forall sid | sid in s'.table.heap ensures ShapedSession(s', sid) {
      ShapedSessions(cfg, s, e, sid);
    }
  }
}
