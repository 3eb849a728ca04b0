// The session manager as an object: the code each caller runs while it holds
// the manager lock. Every method does to the fields what SessionTable says.

module SessionManager {
  import opened Wrappers
  import opened Utf8
  import opened History
  import opened SessionTable

  class ManagedSession {
    const history: HistoryBuffer
    var controller: Option<Ref>
    var watchers: map<ConnId, Ref>
    var reconnectTimer: Option<nat>
    var cleanupGeneration: nat
    var exitInfo: Option<ExitInfo>
    var name: string
    ghost var output: seq<seq<byte>>
    var attaches: nat // a log; the code keeps none

    ghost predicate Valid()
      reads this, history
    {
      history.Valid() && history.chunks == Replay(output, history.maxBytes)
    }

    ghost function View(): (s: Session)
      reads this
    {
      Session(output, controller, watchers, reconnectTimer, cleanupGeneration, exitInfo, name, attaches)
    }

    constructor (limit: int, ref: Ref)
      ensures Valid() && fresh(history) && View() == NewSession(ref)
      ensures history.maxBytes == if limit <= 0 then 1 else limit
    {
      history := new HistoryBuffer(limit);
      controller := Some(ref);
      watchers := map[];
      reconnectTimer := None;
      cleanupGeneration := 0;
      exitInfo := None;
      name := "";
      output := [];
      attaches := 0;
    }

    // collectConnectionsLocked
    method CollectConnections() returns (targets: seq<Ref>)
      requires Disjoint(View())
      ensures IsCollection(View(), targets)
    {
      targets := [];
      if controller.Some? {
        targets := [controller.value];
      }
      var left := watchers.Keys;
      while left != {}
        invariant left <= watchers.Keys
        invariant Distinct(targets)
        invariant controller.Some? ==> targets != [] && targets[0] == controller.value
        invariant forall r :: r in targets <==>
          controller == Some(r) || (r.conn in watchers && r.conn !in left && watchers[r.conn] == r)
        decreases left
      {
        var c :| c in left;
        left := left - {c};
        assert watchers[c] in watchers.Values;
        targets := targets + [watchers[c]];
      }
    }

    method HasConnections() returns (b: bool)
      ensures b == SessionTable.HasConnections(View())
    {
      b := controller.Some? || watchers != map[];
    }
  }

  class Manager {
    const detachedTTL: int
    const historyBytes: int
    var closed: bool
    var sessions: map<SessionId, ManagedSession>
    var nextSerial: nat
    // the runtime's armed and running cleanup callbacks
    var timers: map<TimerKey, Timer>
    // every session ever created; those in `sessions` are still in the map
    ghost var created: map<SessionId, ManagedSession>
    ghost var table: Table
    ghost var repr: set<object>

    ghost function Limit(): (max: nat) {
      if historyBytes <= 0 then 1 else historyBytes
    }

    ghost predicate Linked(id: SessionId)
      requires id in created
      reads this, created[id], created[id].history
    {
      && created[id] in repr && created[id].history in repr
      && created[id].Valid() && created[id].history.maxBytes == Limit()
      && id in table.heap && created[id].View() == table.heap[id]
    }

    ghost predicate Apart(i: SessionId, j: SessionId)
      requires i in created && j in created
      reads this
    {
      created[i] != created[j] && created[i].history != created[j].history
    }

    ghost predicate Owned()
      reads this
    {
      && (forall id :: id in created ==> created[id] in repr && created[id].history in repr)
      && (forall i, j :: i in created && j in created && i != j ==> Apart(i, j))
    }

    ghost predicate Valid()
      reads this, repr
    {
      && this !in repr
      && table == Table(closed, table.heap, sessions.Keys, timers, nextSerial)
      && sessions.Keys <= created.Keys && created.Keys == table.heap.Keys
      && (forall id :: id in sessions ==> sessions[id] == created[id])
      && Owned()
      && (forall id :: id in created ==> Linked(id))
    }

    ghost predicate Filed()
      reads this
    {
      forall id :: id in sessions ==> id in created && sessions[id] == created[id]
    }

    lemma Look(sid: SessionId)
      requires Valid()
      ensures created.Keys == table.heap.Keys && Filed()
      ensures table == Table(closed, table.heap, sessions.Keys, timers, nextSerial)
      ensures this !in repr && (sid in sessions) == Has(table, sid) && timers == table.timers
      ensures closed == table.closed && nextSerial == table.nextSerial
      ensures sid in sessions ==>
        && sessions[sid] in repr && sessions[sid].history in repr && sessions[sid].history.maxBytes == Limit()
        && sessions[sid].Valid() && sessions[sid].View() == table.heap[sid]
    {
    }

    twostate lemma StillLinked(id: SessionId)
      requires id in created && id in old(created) && created[id] == old(created[id]) && old(Linked(id))
      requires unchanged(created[id]) && unchanged(created[id].history)
      requires repr == old(repr) && id in table.heap && table.heap[id] == old(table).heap[id]
      ensures Linked(id)
    {
      hide Replay, Total;
    }

    twostate lemma Relinked(id: SessionId)
      requires id in created && id in old(created) && created[id] == old(created[id]) && old(Linked(id))
      requires repr == old(repr) && created[id].Valid()
      requires id in table.heap && table.heap[id] == created[id].View()
      ensures Linked(id)
    {
      hide ManagedSession.Valid;
    }

    // Work on one session leaves the others linked to the table.
    twostate lemma Touched(sid: SessionId)
      requires old(Valid()) && created == old(created) && repr == old(repr) && sid in created
      requires forall o | o in repr && o != created[sid] && o != created[sid].history :: unchanged(o)
      requires table == Table(closed, old(table).heap[sid := created[sid].View()], sessions.Keys, timers, nextSerial)
      requires Filed()
      requires created[sid].Valid()
      ensures Valid()
    {
      hide ManagedSession.Valid, Linked, HistoryBuffer.Valid;
      assert this !in repr && Owned();
      forall id | id in created ensures Linked(id) {
        assert old(Linked(id));
        if id != sid {
          assert Apart(id, sid);
          StillLinked(id);
        } else {
          Relinked(sid);
        }
      }
    }

    // Nor does work on the manager's own fields unlink any.
    twostate lemma Refiled()
      requires old(Valid()) && created == old(created) && repr == old(repr) && Filed()
      requires forall o | o in repr :: unchanged(o)
      requires table == Table(closed, old(table).heap, sessions.Keys, timers, nextSerial)
      ensures Valid()
    {
      hide ManagedSession.Valid, Linked, HistoryBuffer.Valid;
      assert this !in repr && Owned();
      forall id | id in created ensures Linked(id) {
        assert old(Linked(id));
        StillLinked(id);
      }
    }

    twostate lemma AddedApart(id: SessionId, new session: ManagedSession)
      requires old(Owned()) && id !in old(created) && fresh(session) && fresh(session.history)
      requires created == old(created)[id := session] && repr == old(repr) + {session, session.history}
      ensures Owned()
    {
      forall i, j | i in created && j in created && i != j ensures Apart(i, j) {
        assert i != id && j != id ==> old(Apart(i, j));
      }
    }

    twostate lemma Added(id: SessionId, new session: ManagedSession)
      requires old(Valid()) && id !in old(created) && fresh(session) && fresh(session.history)
      requires created == old(created)[id := session] && sessions == old(sessions)[id := session]
      requires repr == old(repr) + {session, session.history} && this !in repr
      requires forall o | o in old(repr) :: unchanged(o)
      requires session.Valid() && session.history.maxBytes == Limit()
      requires table == Table(closed, old(table).heap[id := session.View()], sessions.Keys, timers, nextSerial)
      ensures Valid()
    {
      hide ManagedSession.Valid, HistoryBuffer.Valid, Total, Replay, Owned;
      AddedApart(id, session);
      forall i | i in created ensures Linked(i) {
        if i != id {
          assert old(Linked(i));
          assert created[i].Valid() && created[i].View() == old(created[i].View());
        }
      }
    }

    constructor (ttl: int, bytes: int)
      ensures Valid() && table == EMPTY_TABLE && detachedTTL == ttl && historyBytes == bytes && repr == {}
    {
      detachedTTL, historyBytes := ttl, bytes;
      closed, sessions, nextSerial, timers := false, map[], 0, map[];
      created, table, repr := map[], EMPTY_TABLE, {};
    }

    // reconnectTimer.Stop(); reconnectTimer = nil
    method StopTimer(sid: SessionId)
      requires Valid() && sid in sessions
      modifies this`timers, this`table, repr
      ensures Valid() && table == SessionTable.StopTimer(old(table), sid)
    {
      hide Valid, Replay, Total;
      Look(sid);
      var session := sessions[sid];
      if session.reconnectTimer.Some? {
        var key := TimerKey(sid, session.reconnectTimer.value);
        if key in timers && !timers[key].fired {
          timers := timers - {key};
        }
        session.reconnectTimer := None;
      }
      table := SessionTable.StopTimer(table, sid);
      Touched(sid);
    }

    // cleanupGeneration++ and time.AfterFunc
    method ArmCleanup(sid: SessionId, delayMs: int)
      requires Valid() && sid in sessions
      modifies this`timers, this`table, repr
      ensures Valid() && table == Arm(old(table), sid, delayMs)
    {
      hide Valid, Replay, Total;
      Look(sid);
      var session := sessions[sid];
      session.cleanupGeneration := session.cleanupGeneration + 1;
      var generation := session.cleanupGeneration;
      session.reconnectTimer := Some(generation);
      timers := timers[TimerKey(sid, generation) := Timer(false, delayMs, session.attaches)];
      table := Arm(table, sid, delayMs);
      Touched(sid);
    }

    method ScheduleCleanup(sid: SessionId, delayMs: int)
      requires Valid()
      modifies this`timers, this`table, repr
      ensures Valid() && table == Schedule(old(table), sid, delayMs)
    {
      hide Valid, SessionTable.StopTimer, Arm;
      Look(sid);
      if sid !in sessions {
        return;
      }
      StopTimer(sid);
      Look(sid);
      var connected := sessions[sid].HasConnections();
      if sessions[sid].exitInfo.None? && connected {
        return;
      }
      ArmCleanup(sid, delayMs);
    }

    // ------------------------------------------------------------- attaching

    method CountAttach(sid: SessionId)
      requires Valid() && sid in sessions
      modifies this`table, repr
      ensures Valid()
      ensures var s := old(table).heap[sid];
              table == Put(old(table), sid, s.(generation := s.generation + 1, attaches := s.attaches + 1))
    {
      hide Valid, Replay, Total;
      Look(sid);
      var session := sessions[sid];
      session.cleanupGeneration := session.cleanupGeneration + 1;
      session.attaches := session.attaches + 1;
      table := Put(table, sid, session.View());
      Touched(sid);
    }

    method Register(sid: SessionId, ref: Ref, watch: bool)
      requires Valid() && sid in sessions
      modifies this`nextSerial, this`table, repr
      ensures Valid()
      ensures var s := old(table).heap[sid];
              var s' := if watch then s.(watchers := s.watchers[ref.conn := ref]) else s.(controller := Some(ref));
              table == Put(old(table), sid, s').(nextSerial := old(nextSerial) + 1)
    {
      hide Valid, Replay, Total;
      Look(sid);
      var session := sessions[sid];
      if watch {
        session.watchers := session.watchers[ref.conn := ref];
      } else {
        session.controller := Some(ref);
      }
      nextSerial := nextSerial + 1;
      table := Put(table, sid, session.View()).(nextSerial := nextSerial);
      Touched(sid);
    }

    // Attach with a session id, up to the release of the manager lock.
    method AttachExisting(sid: SessionId, conn: ConnId, watch: bool) returns (o: AttachOutcome)
      requires Valid()
      modifies this`timers, this`nextSerial, this`table, repr
      ensures Valid()
      ensures (table, o) == SessionTable.AttachExisting(old(table), Limit(), sid, conn, watch)
    {
      hide Valid, Replay, Total, SessionTable.StopTimer;
      Look(sid);
      if closed {
        return ManagerClosed;
      }
      if sid !in sessions {
        return NotFound;
      }
      CountAttach(sid);
      StopTimer(sid);
      Look(sid);
      var existing := sessions[sid];
      if !watch && existing.controller.Some? && existing.controller.value.conn != conn {
        return AlreadyAttached;
      }
      var ref := Ref(conn, nextSerial);
      o := Attached(ref, watch, existing.history.Dump(), existing.exitInfo);
      Register(sid, ref, watch);
    }

    // Attach without one; `id` is what uuid.NewString returned.
    method AttachNew(id: SessionId, conn: ConnId, spawned: bool) returns (o: AttachOutcome)
      requires Valid() && id !in table.heap
      modifies this
      ensures Valid() && fresh(repr - old(repr))
      ensures (table, o) == SessionTable.AttachNew(old(table), id, conn, spawned)
    {
      hide Valid, Replay, Total, Concat;
      Look(id);
      if closed {
        return ManagerClosed;
      }
      if !spawned {
        return SpawnFailed;
      }
      var ref := Ref(conn, nextSerial);
      var session := new ManagedSession(historyBytes, ref);
      sessions := sessions[id := session];
      nextSerial := nextSerial + 1;
      created := created[id := session];
      table := SessionTable.AttachNew(table, id, conn, spawned).0;
      repr := repr + {session, session.history};
      assert sessions.Keys == old(sessions.Keys) + {id};
      Added(id, session);
      o := Attached(ref, false, [], None);
    }

    // ------------------------------------------------------------- the others

    method Forget(sid: SessionId, conn: ConnId)
      requires Valid() && sid in sessions
      modifies this`table, repr
      ensures Valid() && table == Put(old(table), sid, SessionTable.Forget(old(table).heap[sid], conn))
    {
      hide Valid, Replay, Total;
      Look(sid);
      var session := sessions[sid];
      if session.controller.Some? && session.controller.value.conn == conn {
        session.controller := None;
      }
      session.watchers := session.watchers - {conn};
      table := Put(table, sid, session.View());
      Touched(sid);
    }

    method Detach(sid: SessionId, conn: ConnId)
      requires Valid()
      modifies this`timers, this`table, repr
      ensures Valid() && table == SessionTable.Detach(old(table), detachedTTL, sid, conn)
    {
      hide Valid, SessionTable.StopTimer, Schedule;
      Look(sid);
      if sid !in sessions {
        return;
      }
      Forget(sid, conn);
      StopTimer(sid);
      Look(sid);
      if sessions[sid].exitInfo.Some? {
        ScheduleCleanup(sid, 1);
      } else if detachedTTL > 0 {
        ScheduleCleanup(sid, detachedTTL);
      }
    }

    method Record(sid: SessionId, data: seq<byte>)
      requires Valid() && sid in sessions
      modifies this`table, repr
      ensures Valid() && table == SessionTable.AppendOutput(old(table), sid, data)
    {
      hide Valid, Total, Concat, Appended;
      Look(sid);
      var session := sessions[sid];
      session.history.Append(data);
      session.output := session.output + [data];
      table := Put(table, sid, session.View());
      assert session.output[..|session.output| - 1] == old(session.output);
      Touched(sid);
    }

    // forwardOutput, up to the release of the manager lock.
    method AppendOutput(sid: SessionId, data: seq<byte>) returns (targets: seq<Ref>)
      requires Valid()
      requires Has(table, sid) ==> Disjoint(table.heap[sid])
      modifies this`table, repr
      ensures Valid() && table == SessionTable.AppendOutput(old(table), sid, data)
      ensures if Has(table, sid) then IsCollection(table.heap[sid], targets) else targets == []
    {
      hide Valid, IsCollection;
      Look(sid);
      if sid !in sessions {
        return [];
      }
      Record(sid, data);
      Look(sid);
      targets := sessions[sid].CollectConnections();
    }

    // watchExit, up to the first release of the manager lock.
    method RecordExit(sid: SessionId, info: ExitInfo) returns (targets: seq<Ref>)
      requires Valid()
      requires Has(table, sid) ==> Disjoint(table.heap[sid])
      modifies this`table, repr
      ensures Valid() && table == SessionTable.RecordExit(old(table), sid, info)
      ensures if Has(table, sid) then IsCollection(table.heap[sid], targets) else targets == []
    {
      hide Valid, Replay, Total, IsCollection;
      Look(sid);
      if sid !in sessions {
        return [];
      }
      var session := sessions[sid];
      session.exitInfo := Some(info);
      table := Put(table, sid, session.View());
      Touched(sid);
      targets := session.CollectConnections();
    }

    method Rename(sid: SessionId, name: string) returns (ok: bool)
      requires Valid()
      modifies this`table, repr
      ensures Valid() && table == SessionTable.Rename(old(table), sid, name) && ok == Has(table, sid)
    {
      hide Valid, Replay, Total;
      Look(sid);
      if sid !in sessions {
        return false;
      }
      sessions[sid].name := name;
      table := SessionTable.Rename(table, sid, name);
      Touched(sid);
      ok := true;
    }

    // The check with which Write and Resize begin.
    method CanDrive(sid: SessionId) returns (ok: bool)
      requires Valid()
      ensures ok == (Has(table, sid) && table.heap[sid].exit.None?)
    {
      hide Valid;
      Look(sid);
      ok := sid in sessions && sessions[sid].exitInfo.None?;
    }

    // The runtime starts a callback goroutine.
    method FireTimer(key: TimerKey)
      requires Valid() && key in timers
      modifies this`timers, this`table
      ensures Valid() && table == Fire(old(table), key)
    {
      hide Valid;
      Look(key.sid);
      timers := timers[key := timers[key].(fired := true)];
      table := Fire(table, key);
      Refiled();
    }

    // cleanup, up to the release of the manager lock.
    method Cleanup(key: TimerKey) returns (removed: bool)
      requires Valid()
      modifies this`timers, this`sessions, this`table
      ensures Valid() && table == SessionTable.Cleanup(old(table), key) && removed == Removes(old(table), key)
    {
      hide Valid;
      Look(key.sid);
      timers := timers - {key};
      removed := false;
      if key.sid in sessions {
        var session := sessions[key.sid];
        var connected := session.HasConnections();
        removed := session.cleanupGeneration == key.generation && !(session.exitInfo.None? && connected);
      }
      if removed {
        sessions := sessions - {key.sid};
      }
      table := SessionTable.Cleanup(table, key);
      Refiled();
    }

    // Shutdown, up to the release of the manager lock.
    method Shutdown() returns (taken: map<SessionId, ManagedSession>)
      requires Valid()
      modifies this`closed, this`sessions, this`table
      ensures Valid() && table == SessionTable.Shutdown(old(table)) && taken == old(sessions)
    {
      hide Valid;
      Look(0);
      closed := true;
      taken := sessions;
      sessions := map[];
      table := SessionTable.Shutdown(table);
      Refiled();
    }
  }
}
