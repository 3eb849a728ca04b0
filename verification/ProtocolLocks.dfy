// The sessionConn mutexes: who holds them, that nobody writes without one, and
// that nobody waits in a circle.

module ProtocolLocks {
  import opened Wrappers
  import Utf8
  import History
  import opened SessionTable
  import opened Protocol
  import ProtocolShape

  // Goroutine g is inside the region that mutex k protects.
  ghost predicate Inside(s: State, g: Owner, k: nat) {
    match g
    case HandlerOf(c) =>
      && c in s.clients && s.clients[c].att.Some? && s.clients[c].att.value.ref.serial == k
      && (s.clients[c].phase.Replaying? || s.clients[c].phase.SendHolding?)
    case ForwarderOf(sid) =>
      && sid in s.forwarders && s.forwarders[sid].Sending? && s.forwarders[sid].holding
      && s.forwarders[sid].todo != [] && s.forwarders[sid].todo[0].serial == k
  }

  // sessionConn objects are never shared between sockets.
  ghost predicate SerialsUnique(s: State) {
    forall c, d |
      c in s.clients && d in s.clients && s.clients[c].att.Some? && s.clients[d].att.Some?
      && s.clients[c].att.value.ref.serial == s.clients[d].att.value.ref.serial :: c == d
  }

  // The lock table is exactly who is inside.
  ghost predicate Locked(s: State) {
    && SerialsUnique(s)
    && (forall g, k :: Inside(s, g, k) <==> k in s.locks && s.locks[k] == g)
    && (forall k :: k in s.locks ==> k < s.table.nextSerial)
  }

  datatype LockOp = Keep | Take(k: nat, g: Owner) | Drop(k: nat, g: Owner)

  ghost function LockEffect(s: State, e: Event, s': State): (op: LockOp)
    requires Shaped(s) && Enabled(s, e)
  {
    match e
    case AttachOld(c, _, _) =>
      if c in s'.clients && s'.clients[c].att.Some? then Take(s.table.nextSerial, HandlerOf(c)) else Keep
    case AttachFresh(c, _, _) =>
      if c in s'.clients && s'.clients[c].att.Some? then Take(s.table.nextSerial, HandlerOf(c)) else Keep
    case ClientStep(c, move) =>
      assert ShapedClient(s, c);
      if move.SendLock? then Take(s.clients[c].att.value.ref.serial, HandlerOf(c))
      else if move.SendWrite? then Drop(s.clients[c].att.value.ref.serial, HandlerOf(c))
      else if move.ReplayWrite? && !(s.clients[c].open && move.ok && |s.clients[c].phase.todo| > 1) then
        Drop(s.clients[c].att.value.ref.serial, HandlerOf(c))
      else Keep
    case ForwarderStep(sid, step) =>
      if step.Lock? then Take(s.forwarders[sid].todo[0].serial, ForwarderOf(sid))
      else if step.Write? then Drop(s.forwarders[sid].todo[0].serial, ForwarderOf(sid))
      else Keep
    case _ => Keep
  }

  // A mutex is taken only when it is free, or brand new.
  ghost predicate LockTable(s: State, s': State, op: LockOp) {
    match op
    case Keep => s'.locks == s.locks
    case Take(k, g) =>
      s'.locks == s.locks[k := g] && k < s'.table.nextSerial && (k in s.locks ==> k >= s.table.nextSerial)
    case Drop(k, g) => s'.locks == s.locks - {k} && Inside(s, g, k)
  }

  lemma LockTableAfter(cfg: Config, s: State, e: Event)
    requires Shaped(s) && Enabled(s, e)
    ensures LockTable(s, Apply(cfg, s, e), LockEffect(s, e, Apply(cfg, s, e)))
    ensures s.table.nextSerial <= Apply(cfg, s, e).table.nextSerial
  {
    hide StopTimer, BeginAttach, Schedule, Detach, History.Replay, Utf8.Concat, MoveClient, MoveForwarder, IsCollection;
    if e.ClientStep? {
      assert ShapedClient(s, e.c);
    }
    if e.ForwarderStep? {
      assert ShapedForwarder(s, e.sid);
      assert s.forwarders[e.sid].Sending? ==> s.forwarders[e.sid].todo[0] in s.forwarders[e.sid].todo;
      assert s.forwarders[e.sid].Sending? ==> ShapedClient(s, s.forwarders[e.sid].todo[0].conn);
    }
  }

  ghost predicate InsideAfterOp(s: State, s': State, op: LockOp, g: Owner, k: nat) {
    Inside(s', g, k) <==> op == Take(k, g) || (Inside(s, g, k) && op != Drop(k, g))
  }

  lemma InsideAfterClientStep(cfg: Config, s: State, e: Event, g: Owner, k: nat)
    requires Shaped(s) && Enabled(s, e) && e.ClientStep?
    ensures InsideAfterOp(s, Apply(cfg, s, e), LockEffect(s, e, Apply(cfg, s, e)), g, k)
  {
    assert ShapedClient(s, e.c);
    hide ClientLocks, Shaped;
  }

  lemma InsideAfterForwarderStep(cfg: Config, s: State, e: Event, g: Owner, k: nat)
    requires Shaped(s) && Enabled(s, e) && e.ForwarderStep?
    ensures InsideAfterOp(s, Apply(cfg, s, e), LockEffect(s, e, Apply(cfg, s, e)), g, k)
  {
    hide ForwarderTable, ForwarderLocks;
    assert ShapedForwarder(s, e.sid);
  }

  lemma InsideAfterAttach(cfg: Config, s: State, e: Event, g: Owner, k: nat)
    requires Shaped(s) && Enabled(s, e) && (e.AttachOld? || e.AttachFresh?)
    ensures InsideAfterOp(s, Apply(cfg, s, e), LockEffect(s, e, Apply(cfg, s, e)), g, k)
  {
    assert s.forwarders.Keys == s.table.heap.Keys;
    hide Shaped, StopTimer, BeginAttach, History.Replay, Utf8.Concat;
  }

  lemma InsideAfterOther(cfg: Config, s: State, e: Event, g: Owner, k: nat)
    requires Shaped(s) && Enabled(s, e) && !e.ClientStep? && !e.ForwarderStep? && !e.AttachOld? && !e.AttachFresh?
    ensures InsideAfterOp(s, Apply(cfg, s, e), LockEffect(s, e, Apply(cfg, s, e)), g, k)
  {
    hide Shaped, Detach, Rename, Cleanup, StopFrozenTimer;
  }

  lemma InsideAfter(cfg: Config, s: State, e: Event, g: Owner, k: nat)
    requires Shaped(s) && Enabled(s, e)
    ensures InsideAfterOp(s, Apply(cfg, s, e), LockEffect(s, e, Apply(cfg, s, e)), g, k)
  {
    hide Apply, Enabled, LockEffect;
    if e.ClientStep? {
      InsideAfterClientStep(cfg, s, e, g, k);
    } else if e.ForwarderStep? {
      InsideAfterForwarderStep(cfg, s, e, g, k);
    } else if e.AttachOld? || e.AttachFresh? {
      InsideAfterAttach(cfg, s, e, g, k);
    } else {
      InsideAfterOther(cfg, s, e, g, k);
    }
  }

  lemma SerialsStayUnique(cfg: Config, s: State, e: Event)
    requires Shaped(s) && SerialsUnique(s) && Enabled(s, e)
    ensures SerialsUnique(Apply(cfg, s, e))
  {
    hide Apply, Enabled;
    var s' := Apply(cfg, s, e);
    forall c | c in s'.clients
      ensures ProtocolShape.ClientChange(s, e, s', c) && (c in s.clients ==> ShapedClient(s, c))
    {
      ProtocolShape.ClientAfter(cfg, s, e, c);
    }
  }

  lemma LockedAfterOp(s: State, s': State, op: LockOp)
    requires Locked(s) && SerialsUnique(s')
    requires s.table.nextSerial <= s'.table.nextSerial
    requires LockTable(s, s', op)
    requires forall g, k :: InsideAfterOp(s, s', op, g, k)
    ensures Locked(s')
  {
    forall g, k ensures Inside(s', g, k) <==> k in s'.locks && s'.locks[k] == g {
      assert InsideAfterOp(s, s', op, g, k);
      assert Inside(s, g, k) <==> k in s.locks && s.locks[k] == g;
    }
  }

  lemma LockedStep(cfg: Config, s: State, e: Event)
    requires Shaped(s) && Locked(s) && Enabled(s, e)
    ensures Locked(Apply(cfg, s, e))
  {
    hide Apply, Enabled, LockEffect;
    var s' := Apply(cfg, s, e);
    var op := LockEffect(s, e, s');
    SerialsStayUnique(cfg, s, e);
    LockTableAfter(cfg, s, e);
    forall g, k ensures InsideAfterOp(s, s', op, g, k) {
      InsideAfter(cfg, s, e, g, k);
    }
    LockedAfterOp(s, s', op);
  }

  // ------------------------------------------------------------ what follows

  // Goroutine g is in the middle of a write to the socket of c.
  ghost predicate Writing(s: State, g: Owner, c: ConnId) {
    match g
    case HandlerOf(h) =>
      && h == c && c in s.clients
      && (s.clients[c].phase.Replaying? || s.clients[c].phase.SendHolding? || s.clients[c].phase.DirectSend?)
    case ForwarderOf(sid) =>
      && sid in s.forwarders && s.forwarders[sid].Sending? && s.forwarders[sid].holding
      && s.forwarders[sid].todo != [] && s.forwarders[sid].todo[0].conn == c
  }

  // At most one goroutine writes to a socket: before registration only its
  // handler, afterwards only the holder of its mutex.
  lemma OneWriter(s: State, g: Owner, h: Owner, c: ConnId)
    requires Shaped(s) && Locked(s)
    requires Writing(s, g, c) && Writing(s, h, c)
    ensures g == h
  {
    WriterIsInside(s, g, c);
    WriterIsInside(s, h, c);
    if s.clients[c].att.Some? {
      assert Inside(s, g, s.clients[c].att.value.ref.serial);
      assert Inside(s, h, s.clients[c].att.value.ref.serial);
    }
  }

  lemma WriterIsInside(s: State, g: Owner, c: ConnId)
    requires Shaped(s) && Locked(s) && Writing(s, g, c)
    ensures c in s.clients
    ensures if s.clients[c].att.Some? then Inside(s, g, s.clients[c].att.value.ref.serial) else g == HandlerOf(c)
  {
    match g
    case HandlerOf(_) =>
      assert ShapedClient(s, c);
    case ForwarderOf(sid) =>
      assert ShapedForwarder(s, sid);
      assert s.forwarders[sid].todo[0] in s.forwarders[sid].todo;
  }

  function StepOf(e: Event): (g: Option<Owner>) {
    match e
    case ClientStep(c, _) => Some(HandlerOf(c))
    case AttachOld(c, _, _) => Some(HandlerOf(c))
    case AttachFresh(c, _, _) => Some(HandlerOf(c))
    case DetachClient(c) => Some(HandlerOf(c))
    case RenameSession(c, _) => Some(HandlerOf(c))
    case ForwarderStep(sid, _) => Some(ForwarderOf(sid))
    case _ => None
  }

  // A message reaches a wire only by a step of the goroutine that is writing.
  lemma OnlyTheWriterWrites(cfg: Config, s: State, e: Event, c: ConnId)
    requires Shaped(s) && Enabled(s, e) && c in s.clients
    requires c in Apply(cfg, s, e).clients && Apply(cfg, s, e).clients[c].wire != s.clients[c].wire
    ensures StepOf(e).Some? && Writing(s, StepOf(e).value, c)
  {
    hide StopTimer, BeginAttach, Schedule, Detach, History.Replay, Utf8.Concat;
    hide ClientLocks, ForwarderLocks, MoveForwarder;
  }

  // Goroutine g is blocked on mutex k.
  ghost predicate Waits(s: State, g: Owner, k: nat) {
    match g
    case HandlerOf(c) => c in s.clients && s.clients[c].phase.SendWaiting? && s.clients[c].phase.ref.serial == k
    case ForwarderOf(sid) =>
      && sid in s.forwarders && s.forwarders[sid].Sending? && !s.forwarders[sid].holding
      && s.forwarders[sid].todo != [] && s.forwarders[sid].todo[0].serial == k
  }

  // The next step of a goroutine inside a mutex: one write.
  ghost function WriteStep(s: State, g: Owner): (e: Event) {
    match g
    case HandlerOf(c) =>
      if c in s.clients && s.clients[c].phase.SendHolding? then ClientStep(c, SendWrite(true))
      else ClientStep(c, ReplayWrite(true))
    case ForwarderOf(sid) => ForwarderStep(sid, Write(true))
  }

  ghost function WritesLeft(s: State, g: Owner): (n: nat) {
    match g
    case HandlerOf(c) =>
      if c in s.clients && s.clients[c].phase.Replaying? then |s.clients[c].phase.todo| else 1
    case ForwarderOf(_) => 1
  }

  // Whatever mutex somebody waits for, its holder waits for nothing, can always
  // take its next step, and leaves after finitely many of them.
  lemma HoldersNeverWait(cfg: Config, s: State, k: nat)
    requires Shaped(s) && Locked(s) && k in s.locks
    ensures var g, e := s.locks[k], WriteStep(s, s.locks[k]);
            && (forall j :: !Waits(s, g, j))
            && Enabled(s, e) && StepOf(e) == Some(g)
            && (k in Apply(cfg, s, e).locks ==>
                  Apply(cfg, s, e).locks[k] == g && WritesLeft(Apply(cfg, s, e), g) < WritesLeft(s, g))
  {
    hide StopTimer, BeginAttach, Schedule, Detach, History.Replay, Utf8.Concat;
    var g := s.locks[k];
    assert Inside(s, g, k);
    match g
    case HandlerOf(c) =>
      assert ShapedClient(s, c);
    case ForwarderOf(sid) =>
      assert ShapedForwarder(s, sid);
  }

  // Events that enter the manager lock.
  predicate EntersManager(e: Event) {
    || e.AttachOld? || e.AttachFresh? || e.DetachClient? || e.RenameSession? || e.TimerRuns? || e.ShutdownManager?
    || (e.ClientStep? && (e.move.Say? || e.move.CheckInput?))
    || (e.ForwarderStep? && (e.step.Data? || e.step.ProcessExit? || e.step.ScheduleExit?))
  }

  // Nobody asks for the manager lock while holding a sessionConn mutex.
  lemma ManagerLockComesFirst(s: State, e: Event, k: nat)
    requires Shaped(s) && Locked(s) && Enabled(s, e) && EntersManager(e)
    requires k in s.locks
    ensures StepOf(e) != Some(s.locks[k])
  {
    assert Inside(s, s.locks[k], k);
  }

  // And the one mutex taken inside the manager lock is brand new.
  lemma NestedMutexIsFresh(cfg: Config, s: State, e: Event, k: nat)
    requires Shaped(s) && Locked(s) && Enabled(s, e) && EntersManager(e)
    requires k in Apply(cfg, s, e).locks && (k !in s.locks || s.locks[k] != Apply(cfg, s, e).locks[k])
    ensures k !in s.locks && forall g :: !Waits(s, g, k)
    ensures k == s.table.nextSerial && (e.AttachOld? || e.AttachFresh?)
  {
    hide Apply;
    LockTableAfter(cfg, s, e);
    assert k == s.table.nextSerial;
    forall g ensures !Waits(s, g, k) {
      match g
      case HandlerOf(c) =>
        assert c in s.clients ==> ShapedClient(s, c);
      case ForwarderOf(sid) =>
        assert sid in s.forwarders ==> ShapedForwarder(s, sid);
        assert sid in s.forwarders && s.forwarders[sid].Sending? ==>
            s.forwarders[sid].todo[0] in s.forwarders[sid].todo
            && ShapedClient(s, s.forwarders[sid].todo[0].conn);
    }
  }
}
