// Who may drive a session: registrations and the handlers that own them.

module ProtocolControl {
  import opened SessionTable
  import opened Protocol
  import opened ProtocolShape

  ghost predicate ClientRegistered(s: State, c: ConnId)
    requires c in s.clients
  {
    Owes(s.clients[c]) ==>
      && s.clients[c].att.value.sid in s.table.heap
      && RegisteredAs(s.table.heap[s.clients[c].att.value.sid], c, s.clients[c].att.value)
  }

  // A live session knows only sockets whose handler still has to detach.
  ghost predicate SessionOwned(s: State, sid: SessionId) {
    Has(s.table, sid) ==>
      && (s.table.heap[sid].controller.Some? ==>
            var c := s.table.heap[sid].controller.value.conn;
            c in s.clients && Owes(s.clients[c]))
      && forall c :: c in s.table.heap[sid].watchers ==> c in s.clients && Owes(s.clients[c])
  }

  ghost predicate Controlled(s: State) {
    && (forall c :: c in s.clients ==> ClientRegistered(s, c))
    && (forall sid :: sid in s.table.live ==> SessionOwned(s, sid))
  }

  lemma RegisteredAfterChange(s: State, e: Event, s': State, c: ConnId)
    requires Shaped(s) && Controlled(s)
    requires c in s'.clients && Owes(s'.clients[c])
    requires s'.clients[c].att.value.sid in s'.table.heap
    requires ClientChange(s, e, s', c)
    requires ConnectionsChange(s, e, s', s'.clients[c].att.value.sid)
    ensures ClientRegistered(s', c)
  {
    if c in s.clients {
      assert ClientRegistered(s, c) && ShapedClient(s, c);
      if Owes(s.clients[c]) {
        assert ShapedSession(s, s.clients[c].att.value.sid);
      }
    }
  }

  // Whoever was attached and still has to detach, unless it is the one leaving.
  lemma StillOwes(s: State, e: Event, s': State, c: ConnId)
    requires c in s.clients && Owes(s.clients[c]) && AttachmentsKept(s, s') && ClientChange(s, e, s', c)
    ensures StaysOwing(e, s', c)
  {
  }

  lemma OwnedAfterChange(s: State, e: Event, s': State, sid: SessionId)
    requires Shaped(s) && SessionOwned(s, sid)
    requires sid in s'.table.heap && (sid in s.table.heap ==> sid in s.table.live)
    requires ConnectionsChange(s, e, s', sid)
    requires AttachmentsKept(s, s') && forall c :: c in s.clients ==> ClientChange(s, e, s', c)
    ensures SessionOwned(s', sid)
  {
    assert sid in s.table.heap ==> ShapedSession(s, sid);
    assert forall c :: c in s.clients && Owes(s.clients[c]) ==> StaysOwing(e, s', c) by {
      forall c | c in s.clients && Owes(s.clients[c]) ensures StaysOwing(e, s', c) {
        StillOwes(s, e, s', c);
      }
    }
    hide Shaped, ClientChange, AttachmentsKept, Owes;
    OwnedByTheSame(s, e, s', sid);
  }

  predicate StaysOwing(e: Event, s': State, c: ConnId) {
    c in s'.clients && (e != DetachClient(c) ==> Owes(s'.clients[c]))
  }

  lemma OwnedByTheSame(s: State, e: Event, s': State, sid: SessionId)
    requires SessionOwned(s, sid) && sid in s'.table.heap
    requires sid in s.table.heap ==> sid in s.table.live && ShapedSession(s, sid)
    requires ConnectionsChange(s, e, s', sid)
    requires forall c :: c in s.clients && Owes(s.clients[c]) ==> StaysOwing(e, s', c)
    ensures SessionOwned(s', sid)
  {
    hide Owes;
  }

  lemma ControlledStep(cfg: Config, s: State, e: Event)
    requires Shaped(s) && Controlled(s) && Enabled(s, e)
    ensures Controlled(Apply(cfg, s, e))
  {
    hide Apply, Enabled;
    var s' := Apply(cfg, s, e);
    ShapedStep(cfg, s, e);
    AttachmentsStay(cfg, s, e);
    forall c | c in s'.clients ensures ClientChange(s, e, s', c) {
      ClientAfter(cfg, s, e, c);
    }
    forall c | c in s'.clients ensures ClientRegistered(s', c) {
      assert ShapedClient(s', c);
      if Owes(s'.clients[c]) {
        ConnectionsAfter(cfg, s, e, s'.clients[c].att.value.sid);
        RegisteredAfterChange(s, e, s', c);
      }
    }
    forall sid | sid in s'.table.live ensures SessionOwned(s', sid) {
      LiveAfter(cfg, s, e, sid);
      ConnectionsAfter(cfg, s, e, sid);
      OwnedAfterChange(s, e, s', sid);
    }
  }
}
