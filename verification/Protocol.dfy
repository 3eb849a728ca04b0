// The session protocol of the server as a state machine: every goroutine step
// between two lock operations is one event, and any interleaving is a run.

module Protocol {
  import opened Wrappers
  import Utf8
  import History
  import opened SessionTable

  datatype Msg =
    | Ready(sid: SessionId, readOnly: bool)
    | Output(data: seq<Utf8.byte>)
    | Exit(info: ExitInfo)
    | Control(text: string) // pong and error messages

  // What an attach took under the manager lock: a log of the snapshot.
  datatype Attachment = Attachment(sid: SessionId, ref: Ref, readOnly: bool, from: nat, snapshot: seq<Utf8.byte>)

  // Where the handler goroutine of one socket is.
  datatype Phase =
    | Reading                                  // waits for the next message
    | Replaying(todo: seq<Msg>, created: bool) // inside finishAttachLocked, holding its sessionConn mutex
    | ReplayFailed(created: bool)              // closed the socket, about to Detach
    | DirectSend(text: string)                 // writes without a mutex, not attached
    | SendWaiting(ref: Ref, text: string)      // SendJSON found its sessionConn, waits for the mutex
    | SendHolding(ref: Ref, text: string)      // and has it
    | Acting                                   // Write or Resize passed its check
    | Leaving                                  // read loop over, about to Detach
    | Closing                                  // about to run the deferred conn.Close
    | Gone

  datatype Client = Client(phase: Phase, open: bool, wire: seq<Msg>, att: Option<Attachment>)

  // Where the forwarder goroutine of one session is.
  datatype Forwarder =
    | Unstarted
    | Receiving
    | Sending(msg: Msg, todo: seq<Ref>, holding: bool)
    | AwaitingExit
    | Scheduling
    | Done

  datatype Owner = HandlerOf(conn: ConnId) | ForwarderOf(sid: SessionId)

  // One operation that reached a process.
  datatype Input = Input(sid: SessionId, conn: ConnId)

  datatype State = State(
    table: Table,
    clients: map<ConnId, Client>,
    forwarders: map<SessionId, Forwarder>,
    locks: map<nat, Owner>,
    inputs: seq<Input>)

  datatype Config = Config(ttlMs: int, max: History.Limit)

  const INITIAL := State(EMPTY_TABLE, map[], map[], map[], [])

  // Steps of one handler outside the manager lock, or that only read under it.
  datatype ClientMove =
    | ReplayWrite(ok: bool)
    | Say(text: string)
    | DirectWrite(ok: bool)
    | SendLock
    | SendWrite(ok: bool)
    | CheckInput
    | PerformInput
    | Leave
    | CloseSocket
    | PeerClose

  // Steps of the goroutine that runs forwardOutput and then watchExit.
  datatype ForwarderMove =
    | Begin
    | Data(data: seq<Utf8.byte>, order: seq<Ref>)
    | DataClosed
    | Lock
    | Write(ok: bool)
    | ProcessExit(info: ExitInfo, order: seq<Ref>)
    | ExitClosed
    | ScheduleExit

  datatype Event =
    | Connect(c: ConnId)
    | AttachOld(c: ConnId, sid: SessionId, watch: bool)
    | AttachFresh(c: ConnId, sid: SessionId, spawned: bool)
    | DetachClient(c: ConnId)
    | RenameSession(c: ConnId, name: string)
    | ClientStep(c: ConnId, move: ClientMove)
    | ForwarderStep(sid: SessionId, step: ForwarderMove)
    | TimerFires(key: TimerKey)
    | TimerRuns(key: TimerKey)
    | ShutdownManager
    | ReapStop(sid: SessionId)
    | ReapClose(sid: SessionId, c: ConnId)

  // ------------------------------------------------- the shape of a state

  // Just enough for the steps to be well defined.
  ghost predicate Shaped(s: State) {
    && s.table.live <= s.table.heap.Keys
    && s.forwarders.Keys == s.table.heap.Keys
    && (forall c :: c in s.clients ==> ShapedClient(s, c))
    && (forall sid :: sid in s.forwarders ==> ShapedForwarder(s, sid))
    && (forall sid :: sid in s.table.heap ==> ShapedSession(s, sid))
  }

  ghost predicate Holds(s: State, sid: SessionId, ref: Ref, readOnly: bool) {
    && ref.conn in s.clients && s.clients[ref.conn].att.Some?
    && var att := s.clients[ref.conn].att.value;
       att.ref == ref && att.sid == sid && att.readOnly == readOnly
  }

  predicate PhaseFits(client: Client) {
    match client.phase
    case Reading | Closing | Gone => true
    case DirectSend(_) => client.att.None?
    case Replaying(todo, _) => client.att.Some? && todo != []
    case ReplayFailed(_) | Leaving => client.att.Some?
    case Acting => client.att.Some? && !client.att.value.readOnly
    case SendWaiting(ref, _) => client.att.Some? && ref == client.att.value.ref
    case SendHolding(ref, _) => client.att.Some? && ref == client.att.value.ref
  }

  ghost predicate AttachmentFits(s: State, c: ConnId, att: Attachment) {
    && att.sid in s.table.heap
    && att.ref.conn == c && att.ref.serial < s.table.nextSerial
    && att.from <= |s.table.heap[att.sid].output|
  }

  ghost predicate ShapedClient(s: State, c: ConnId)
    requires c in s.clients
  {
    && PhaseFits(s.clients[c])
    && (s.clients[c].att.Some? ==> AttachmentFits(s, c, s.clients[c].att.value))
  }

  ghost predicate ShapedForwarder(s: State, sid: SessionId)
    requires sid in s.forwarders
  {
    s.forwarders[sid].Sending? ==>
      && s.forwarders[sid].todo != []
      && Distinct(s.forwarders[sid].todo)
      && forall ref :: ref in s.forwarders[sid].todo ==> Holds(s, sid, ref, false) || Holds(s, sid, ref, true)
  }

  ghost predicate ShapedSession(s: State, sid: SessionId)
    requires sid in s.table.heap
  {
    var session := s.table.heap[sid];
    && (session.controller.Some? ==> Holds(s, sid, session.controller.value, false))
    && (forall c :: c in session.watchers ==>
          session.watchers[c].conn == c && Holds(s, sid, session.watchers[c], true))
  }

  // ---------------------------------------------------------- handler steps

  // One WriteJSON: it appends to the wire, or it fails and the socket is closed.
  function WriteTo(client: Client, msg: Msg, ok: bool): (client': Client) {
    if client.open && ok then client.(wire := client.wire + [msg]) else client.(open := false)
  }

  predicate ClientCan(locks: map<nat, Owner>, client: Client, move: ClientMove) {
    match move
    case ReplayWrite(_) => client.phase.Replaying? && client.phase.todo != [] && client.att.Some?
    case Say(_) => client.phase.Reading?
    case DirectWrite(_) => client.phase.DirectSend?
    case SendLock => client.phase.SendWaiting? && client.phase.ref.serial !in locks
    case SendWrite(_) => client.phase.SendHolding?
    case CheckInput => client.phase.Reading? && client.att.Some? && !client.att.value.readOnly
    case PerformInput => client.phase.Acting? && client.att.Some?
    case Leave => client.phase.Reading?
    case CloseSocket => client.phase.Closing?
    case PeerClose => true
  }

  function MoveClient(t: Table, c: ConnId, client: Client, move: ClientMove): (client': Client)
    requires ClientCan(map[], client, move)
  {
    match move
    case ReplayWrite(ok) =>
      var next := WriteTo(client, client.phase.todo[0], ok);
      if !(client.open && ok) then next.(phase := ReplayFailed(client.phase.created))
      else if |client.phase.todo| > 1 then next.(phase := client.phase.(todo := client.phase.todo[1..]))
      else next.(phase := Reading)
    case Say(text) =>
      if client.att.None? then client.(phase := DirectSend(text))
      else if !Has(t, client.att.value.sid) then client
      else
        var found := Find(t.heap[client.att.value.sid], c);
        if found.Some? then client.(phase := SendWaiting(found.value, text)) else client
    case DirectWrite(ok) => WriteTo(client, Control(client.phase.text), ok).(phase := Reading)
    case SendLock => client.(phase := SendHolding(client.phase.ref, client.phase.text))
    case SendWrite(ok) => WriteTo(client, Control(client.phase.text), ok).(phase := Reading)
    case CheckInput =>
      var sid := client.att.value.sid;
      if Has(t, sid) && t.heap[sid].exit.None? then client.(phase := Acting) else client
    case PerformInput => client.(phase := Reading)
    case Leave => client.(phase := if client.att.Some? then Leaving else Closing)
    case CloseSocket => client.(phase := Gone, open := false)
    case PeerClose => client.(open := false)
  }

  function ClientLocks(locks: map<nat, Owner>, c: ConnId, client: Client, move: ClientMove): (locks': map<nat, Owner>)
    requires ClientCan(locks, client, move)
  {
    match move
    case ReplayWrite(ok) =>
      if client.open && ok && |client.phase.todo| > 1 then locks else locks - {client.att.value.ref.serial}
    case SendLock => locks[client.phase.ref.serial := HandlerOf(c)]
    case SendWrite(_) => locks - {client.phase.ref.serial}
    case _ => locks
  }

  // -------------------------------------------------------- forwarder steps

  function SendTo(msg: Msg, todo: seq<Ref>): (f: Forwarder) {
    if todo != [] then Sending(msg, todo, false)
    else if msg.Exit? then Scheduling
    else Receiving
  }

  // The goroutine is started when the creating Attach is over.
  ghost predicate CreatorDone(s: State, sid: SessionId) {
    forall c :: c in s.clients && s.clients[c].att.Some? && s.clients[c].att.value.sid == sid ==>
      !(s.clients[c].phase.Replaying? && s.clients[c].phase.created)
      && !(s.clients[c].phase.ReplayFailed? && s.clients[c].phase.created)
  }

  ghost predicate ForwarderCan(s: State, sid: SessionId, f: Forwarder, step: ForwarderMove) {
    match step
    case Begin => f.Unstarted? && CreatorDone(s, sid)
    case Data(_, order) => f.Receiving? && (Has(s.table, sid) ==> IsCollection(s.table.heap[sid], order))
    case DataClosed => f.Receiving?
    case Lock => f.Sending? && !f.holding && f.todo != [] && f.todo[0].serial !in s.locks
    case Write(_) => f.Sending? && f.holding && f.todo != []
    case ProcessExit(_, order) =>
      f.AwaitingExit? && (Has(s.table, sid) ==> IsCollection(s.table.heap[sid], order))
    case ExitClosed => f.AwaitingExit?
    case ScheduleExit => f.Scheduling?
  }

  function MoveForwarder(t: Table, sid: SessionId, f: Forwarder, step: ForwarderMove): (f': Forwarder)
    requires step.Lock? || step.Write? ==> f.Sending? && f.todo != []
  {
    match step
    case Begin => Receiving
    case Data(data, order) => if Has(t, sid) then SendTo(Output(data), order) else AwaitingExit
    case DataClosed => AwaitingExit
    case Lock => f.(holding := true)
    case Write(_) => SendTo(f.msg, f.todo[1..])
    case ProcessExit(info, order) => if Has(t, sid) then SendTo(Exit(info), order) else Done
    case ExitClosed => Done
    case ScheduleExit => Done
  }

  function ForwarderTable(t: Table, sid: SessionId, step: ForwarderMove): (t': Table) {
    match step
    case Data(data, _) => AppendOutput(t, sid, data)
    case ProcessExit(info, _) => RecordExit(t, sid, info)
    case ScheduleExit => Schedule(t, sid, 1)
    case _ => t
  }

  function ForwarderLocks(locks: map<nat, Owner>, sid: SessionId, f: Forwarder, step: ForwarderMove)
    : (locks': map<nat, Owner>)
    requires step.Lock? || step.Write? ==> f.Sending? && f.todo != []
  {
    match step
    case Lock => locks[f.todo[0].serial := ForwarderOf(sid)]
    case Write(_) => locks - {f.todo[0].serial}
    case _ => locks
  }

  function ForwarderClients(clients: map<ConnId, Client>, f: Forwarder, step: ForwarderMove)
    : (clients': map<ConnId, Client>)
    requires step.Write? ==> f.Sending? && f.todo != []
  {
    if step.Write? && f.todo[0].conn in clients then
      var c := f.todo[0].conn;
      clients[c := WriteTo(clients[c], f.msg, step.ok)]
    else clients
  }

  // --------------------------------------------------------------- attaching

  function ReplayMessages(sid: SessionId, o: AttachOutcome): (msgs: seq<Msg>)
    requires o.Attached?
  {
    [Ready(sid, o.readOnly)]
    + (if o.snapshot != [] then [Output(o.snapshot)] else [])
    + (if o.exit.Some? then [Exit(o.exit.value)] else [])
  }

  // The socket is registered and its mutex taken before the manager lock is
  // released.
  function Admit(s: State, c: ConnId, sid: SessionId, t: Table, o: AttachOutcome, created: bool): (s': State)
    requires c in s.clients && sid in t.heap && o.Attached?
  {
    var att := Attachment(sid, o.ref, o.readOnly, |t.heap[sid].output|, o.snapshot);
    s.(table := t,
       clients := s.clients[c := s.clients[c].(phase := Replaying(ReplayMessages(sid, o), created), att := Some(att))],
       locks := s.locks[o.ref.serial := HandlerOf(c)])
  }

  // ------------------------------------------------------------------- steps

  predicate CanAttach(s: State, c: ConnId) {
    c in s.clients && s.clients[c].phase.Reading? && s.clients[c].att.None?
  }

  ghost predicate Enabled(s: State, e: Event) {
    match e
    case Connect(c) => c !in s.clients
    case AttachOld(c, _, _) => CanAttach(s, c)
    case AttachFresh(c, sid, _) => CanAttach(s, c) && sid !in s.table.heap
    case DetachClient(c) =>
      c in s.clients && s.clients[c].att.Some? && (s.clients[c].phase.ReplayFailed? || s.clients[c].phase.Leaving?)
    case RenameSession(c, _) => c in s.clients && ClientCan(s.locks, s.clients[c], CheckInput)
    case ClientStep(c, move) => c in s.clients && ClientCan(s.locks, s.clients[c], move)
    case ForwarderStep(sid, step) => sid in s.forwarders && ForwarderCan(s, sid, s.forwarders[sid], step)
    case TimerFires(key) => key in s.table.timers && !s.table.timers[key].fired
    case TimerRuns(key) => key in s.table.timers && s.table.timers[key].fired
    case ShutdownManager => true
    case ReapStop(sid) => sid in s.table.heap && sid !in s.table.live && s.table.closed
    case ReapClose(sid, c) =>
      sid in s.table.heap && sid !in s.table.live && Find(s.table.heap[sid], c).Some?
  }

  ghost function Apply(cfg: Config, s: State, e: Event): (s': State)
    requires Enabled(s, e)
  {
    match e
    case Connect(c) => s.(clients := s.clients[c := Client(Reading, true, [], None)])
    case AttachOld(c, sid, watch) =>
      var (t, o) := AttachExisting(s.table, cfg.max, sid, c, watch);
      if o.Attached? then Admit(s, c, sid, t, o, false) else s.(table := t)
    case AttachFresh(c, sid, spawned) =>
      var (t, o) := AttachNew(s.table, sid, c, spawned);
      if o.Attached? then Admit(s, c, sid, t, o, true).(forwarders := s.forwarders[sid := Unstarted])
      else s.(table := t)
    case DetachClient(c) =>
      s.(table := Detach(s.table, cfg.ttlMs, s.clients[c].att.value.sid, c),
         clients := s.clients[c := s.clients[c].(phase := Closing)])
    case RenameSession(c, name) => s.(table := Rename(s.table, s.clients[c].att.value.sid, name))
    case ClientStep(c, move) =>
      s.(clients := s.clients[c := MoveClient(s.table, c, s.clients[c], move)],
         locks := ClientLocks(s.locks, c, s.clients[c], move),
         inputs := if move.PerformInput? then s.inputs + [Input(s.clients[c].att.value.sid, c)] else s.inputs)
    case ForwarderStep(sid, step) =>
      var f := s.forwarders[sid];
      s.(table := ForwarderTable(s.table, sid, step),
         clients := ForwarderClients(s.clients, f, step),
         forwarders := s.forwarders[sid := MoveForwarder(s.table, sid, f, step)],
         locks := ForwarderLocks(s.locks, sid, f, step))
    case TimerFires(key) => s.(table := Fire(s.table, key))
    case TimerRuns(key) => s.(table := Cleanup(s.table, key))
    case ShutdownManager => s.(table := Shutdown(s.table))
    case ReapStop(sid) => s.(table := StopFrozenTimer(s.table, sid))
    case ReapClose(sid, c) =>
      if c in s.clients then s.(clients := s.clients[c := s.clients[c].(open := false)]) else s
  }
}
