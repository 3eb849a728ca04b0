// What the session manager does while it holds its lock, as functions on values.
// A session that left the table stays in `heap`, as the Go object does while
// somebody still points to it; `live` is the key set of the manager's map.

module SessionTable {
  import opened Wrappers
  import Utf8
  import History

  type SessionId = nat
  type ConnId = nat

  // One sessionConn object; the serial number is its identity.
  datatype Ref = Ref(conn: ConnId, serial: nat)

  datatype ExitInfo = ExitInfo(code: int, signal: int)

  // `output` is everything ever appended to the history, `attaches` counts the
  // attach attempts that found the session: logs, the code keeps neither.
  datatype Session = Session(
    output: seq<seq<Utf8.byte>>,
    controller: Option<Ref>,
    watchers: map<ConnId, Ref>,
    timer: Option<nat>,
    generation: nat,
    exit: Option<ExitInfo>,
    name: string,
    attaches: nat)

  // One armed cleanup callback, named by the session and the generation it was
  // armed with. `fired`: the callback goroutine exists and Stop comes too late.
  datatype TimerKey = TimerKey(sid: SessionId, generation: nat)
  datatype Timer = Timer(fired: bool, delayMs: int, attaches: nat)

  datatype Table = Table(
    closed: bool,
    heap: map<SessionId, Session>,
    live: set<SessionId>,
    timers: map<TimerKey, Timer>,
    nextSerial: nat)

  const EMPTY_TABLE := Table(false, map[], {}, map[], 0)

  datatype AttachOutcome =
    | ManagerClosed
    | NotFound
    | AlreadyAttached
    | SpawnFailed
    | Attached(ref: Ref, readOnly: bool, snapshot: seq<Utf8.byte>, exit: Option<ExitInfo>)

  function HasConnections(s: Session): (b: bool) {
    s.controller.Some? || s.watchers != map[]
  }

  predicate Registered(s: Session, ref: Ref) {
    s.controller == Some(ref) || (ref.conn in s.watchers && s.watchers[ref.conn] == ref)
  }

  // Watchers are filed under their own socket, and the controller's sessionConn
  // is not among them: what the protocol guarantees of every session.
  predicate Disjoint(s: Session) {
    && (forall c :: c in s.watchers ==> s.watchers[c].conn == c)
    && (s.controller.Some? ==> s.controller.value !in s.watchers.Values)
  }

  ghost predicate Distinct(refs: seq<Ref>) {
    forall i, j :: 0 <= i < j < |refs| ==> refs[i] != refs[j]
  }

  // collectConnectionsLocked: the controller first, then the watchers in the
  // order Go's map iteration happens to take.
  ghost predicate IsCollection(session: Session, order: seq<Ref>) {
    && Distinct(order)
    && (forall r :: r in order <==> Registered(session, r))
    && (session.controller.Some? ==> order != [] && order[0] == session.controller.value)
  }

  // findConnectionLocked
  function Find(s: Session, conn: ConnId): (r: Option<Ref>) {
    if s.controller.Some? && s.controller.value.conn == conn then s.controller
    else if conn in s.watchers then Some(s.watchers[conn])
    else None
  }

  // The same session up to its cleanup timer.
  predicate Retimed(a: Session, b: Session) {
    b == a.(timer := b.timer, generation := b.generation)
  }

  // Only session `sid` and the timers may differ.
  predicate TouchesOnly(t: Table, t': Table, sid: SessionId)
    requires sid in t.heap
  {
    && sid in t'.heap
    && t' == t.(heap := t.heap[sid := t'.heap[sid]], timers := t'.timers)
  }

  predicate Has(t: Table, sid: SessionId) {
    sid in t.live && sid in t.heap
  }

  function Put(t: Table, sid: SessionId, s: Session): (t': Table) {
    t.(heap := t.heap[sid := s])
  }

  // Stop and forget reconnectTimer. A callback already running is not stopped.
  function StopTimer(t: Table, sid: SessionId): (t': Table)
    ensures sid !in t.heap ==> t' == t
    ensures sid in t.heap ==>
      && TouchesOnly(t, t', sid) && Retimed(t.heap[sid], t'.heap[sid])
      && t'.heap[sid].timer == None && t'.heap[sid].generation == t.heap[sid].generation
  {
    if sid !in t.heap || t.heap[sid].timer.None? then t
    else
      var s := t.heap[sid];
      var key := TimerKey(sid, s.timer.value);
      t.(heap := t.heap[sid := s.(timer := None)],
         timers := if key in t.timers && !t.timers[key].fired then t.timers - {key} else t.timers)
  }

  // Every attach that names a live session begins like this, also one that is
  // then rejected.
  function BeginAttach(t: Table, sid: SessionId): (t': Table)
    requires sid in t.heap
    ensures TouchesOnly(t, t', sid)
    ensures Retimed(t.heap[sid].(attaches := t.heap[sid].attaches + 1), t'.heap[sid])
    ensures t'.heap[sid].timer == None && t'.heap[sid].generation == t.heap[sid].generation + 1
  {
    var s := t.heap[sid];
    StopTimer(Put(t, sid, s.(generation := s.generation + 1, attaches := s.attaches + 1)), sid)
  }

  function AttachExisting(t: Table, max: nat, sid: SessionId, conn: ConnId, watch: bool): (r: (Table, AttachOutcome))
  {
    if t.closed then (t, ManagerClosed)
    else if !Has(t, sid) then (t, NotFound)
    else
      var t1 := BeginAttach(t, sid);
      var s := t1.heap[sid];
      var ref := Ref(conn, t.nextSerial);
      if !watch && s.controller.Some? && s.controller.value.conn != conn then (t1, AlreadyAttached)
      else
        var s' := if watch then s.(watchers := s.watchers[conn := ref]) else s.(controller := Some(ref));
        (Put(t1, sid, s').(nextSerial := t.nextSerial + 1),
         Attached(ref, watch, Utf8.Concat(History.Replay(s.output, max)), s.exit))
  }

  function NewSession(ref: Ref): (s: Session) {
    Session([], Some(ref), map[], None, 0, None, "", 0)
  }

  function AttachNew(t: Table, id: SessionId, conn: ConnId, spawned: bool): (r: (Table, AttachOutcome)) {
    if t.closed then (t, ManagerClosed)
    else if !spawned then (t, SpawnFailed)
    else
      var ref := Ref(conn, t.nextSerial);
      (Put(t, id, NewSession(ref)).(live := t.live + {id}, nextSerial := t.nextSerial + 1),
       Attached(ref, false, [], None))
  }

  // A new generation and an armed callback for it.
  function Arm(t: Table, sid: SessionId, delayMs: int): (t': Table)
    requires sid in t.heap
  {
    var s := t.heap[sid];
    var g := s.generation + 1;
    Put(t, sid, s.(generation := g, timer := Some(g)))
      .(timers := t.timers[TimerKey(sid, g) := Timer(false, delayMs, s.attaches)])
  }

  // scheduleCleanupLocked
  function Schedule(t: Table, sid: SessionId, delayMs: int): (t': Table)
    ensures !Has(t, sid) ==> t' == t
    ensures Has(t, sid) ==> TouchesOnly(t, t', sid) && Retimed(t.heap[sid], t'.heap[sid])
  {
    if !Has(t, sid) then t
    else
      var t1 := StopTimer(t, sid);
      var s := t1.heap[sid];
      if s.exit.None? && HasConnections(s) then t1 else Arm(t1, sid, delayMs)
  }

  function Forget(s: Session, conn: ConnId): (s': Session) {
    s.(controller := if s.controller.Some? && s.controller.value.conn == conn then None else s.controller,
       watchers := s.watchers - {conn})
  }

  function Detach(t: Table, ttlMs: int, sid: SessionId, conn: ConnId): (t': Table)
    ensures !Has(t, sid) ==> t' == t
    ensures Has(t, sid) ==> TouchesOnly(t, t', sid) && Retimed(Forget(t.heap[sid], conn), t'.heap[sid])
  {
    if !Has(t, sid) then t
    else
      var t1 := StopTimer(Put(t, sid, Forget(t.heap[sid], conn)), sid);
      if t1.heap[sid].exit.Some? then Schedule(t1, sid, 1)
      else if ttlMs > 0 then Schedule(t1, sid, ttlMs)
      else t1
  }

  // The locked part of forwardOutput.
  function AppendOutput(t: Table, sid: SessionId, data: seq<Utf8.byte>): (t': Table)
  {
    if !Has(t, sid) then t
    else Put(t, sid, t.heap[sid].(output := t.heap[sid].output + [data]))
  }

  // The first locked part of watchExit.
  function RecordExit(t: Table, sid: SessionId, info: ExitInfo): (t': Table)
  {
    if !Has(t, sid) then t
    else Put(t, sid, t.heap[sid].(exit := Some(info)))
  }

  function Rename(t: Table, sid: SessionId, name: string): (t': Table)
  {
    if !Has(t, sid) then t else Put(t, sid, t.heap[sid].(name := name))
  }

  predicate Removes(t: Table, key: TimerKey)
  {
    && Has(t, key.sid)
    && t.heap[key.sid].generation == key.generation
    && !(t.heap[key.sid].exit.None? && HasConnections(t.heap[key.sid]))
  }

  // The callback of one timer: cleanup.
  function Cleanup(t: Table, key: TimerKey): (t': Table)
  {
    t.(timers := t.timers - {key}, live := if Removes(t, key) then t.live - {key.sid} else t.live)
  }

  function Fire(t: Table, key: TimerKey): (t': Table) {
    if key !in t.timers then t else t.(timers := t.timers[key := t.timers[key].(fired := true)])
  }

  // The locked part of Shutdown.
  function Shutdown(t: Table): (t': Table) {
    t.(closed := true, live := {})
  }

  // Its unlocked tail stops the timer of a session it took out of the map.
  function StopFrozenTimer(t: Table, sid: SessionId): (t': Table) {
    t.(timers := StopTimer(t, sid).timers)
  }
}
