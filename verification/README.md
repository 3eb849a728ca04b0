# A model of the terminal session stack, with proofs

WooTTY keeps shell sessions on a Go server and shows them in a browser. This
project models the parts of it that have state and can go wrong in time, and
proves what they promise in every run.

**Server.** `SessionTable` says what each locked section of the session manager
does; `SessionManager` is the manager as objects, method by method against it.
`Protocol` makes the server a state machine: each handler, forwarder, timer
callback and `Shutdown` is cut where a lock is taken or released or a message
is written, and any interleaving of those steps is a run. `Timer.Stop` may come
too late. `ProtocolShape`, `ProtocolControl`, `ProtocolLocks`, `ProtocolCleanup`
and `ProtocolDelivery` are invariants, one concern each; `ProtocolTheorems`
and `ProtocolExpiry` read the results off them, and `ProtocolEffects` says what
each step achieves and that nobody is stuck. The state logs the whole output of
every process and everything written to each socket.

Three claims that look right are false of the code. Each has a run that breaks
it and a theorem with the exact condition. An exited session need not be gone a
millisecond later (`ProtocolExpiry.ExitedSessionStays`); it is, as soon as its
callback runs, exactly if nobody tries to attach meanwhile
(`ExitedIsDueExactlyUndisturbed`). The replay need not be the end of the output
when an oversize chunk is cut inside a rune (`History.DirtyClipBreaksSuffix`,
`DumpIsSuffixExactlyWhenClean`). A superseded refresh can be lost
(`RefreshCoordinator.AbortedManualLosesTrigger`, `StepOwes`).

**Bytes.** `Utf8` is section 4 of RFC 3629 together with Go's rule that an
invalid byte is a rune of width 1; `PtyReader` is the read loop on its shared
buffer; `History` is the replay buffer. `ProtocolStream` puts read loop, replay
and protocol together: what a viewer gets of the bytes a terminal wrote.

**Browser transport.** `TransportPolicy`, `TransportState` and `Heartbeat` are
the parts, `Transport` the machine over user commands, timers and the events of
every socket ever attached, `TransportTheorems` what all its runs keep,
`TransportProgress` what its steps achieve, and `TransportService` the objects,
method by method against the machine.

**Browser queues and arbitration.** `Outbox` (array with lazy head) and
`Backpressure` with `ConnectionInput` carry typed input and sizes, with the
bytes counted as `TextEncoding` says; `RefreshCoordinator` arbitrates refreshes
cut at their awaits; `RefreshPolling` is the polling loop with its circuit
breaker.

**Command line.** `SplitArgs` is the quote-aware argument parser,
`SplitArgsGrammar` the grammar it reads.

A class stands for an object the source updates in place. Its ghost field or
view is the value it represents, and each method is proved to do to that value
what the function of the same purpose says; the theorems are about runs of
those functions. Fields called logs record the past for stating properties;
the code keeps none.

`dafny verify dfyconfig.toml` checks everything.

## Model

| member | source | states |
|---|---|---|
| `ProtocolTheorems.StreamIsPrefix` | apps/server/internal/session/attach.go:13-144 | In every interleaving, the ready, output and exit messages on an attached socket are a prefix of: ready, the snapshot taken at its attach, each chunk appended after that snapshot once and in order, then one exit; while its handler is attached and the socket works, exactly the messages on their way are missing |
| `ProtocolTheorems.ReceivedTextIsContiguous` | apps/server/internal/session/lifecycle.go:69-118 | When every chunk before its attach fits the history or is cut on a rune boundary, the text a socket received is one contiguous piece of the whole process output: no gap, no duplicate |
| `ProtocolStream.ViewerSeesThePiece` | apps/server/internal/session/pty.go:134-159 | For a session that forwards chunks of the read loop and a history of at least one reader buffer: whatever the terminal writes, however it is read and whoever attaches when, the text of every attached socket is one contiguous piece of the bytes written |
| `ProtocolStream.ViewerGetsValidText` | apps/server/internal/session/attach.go:120-144 | If those bytes are valid UTF-8 and the reading did not end inside a character, every output message on every socket is valid by itself, the replay included |
| `ProtocolTheorems.SilentBeforeAttach` | apps/server/internal/server/terminal.go:45-54 | A socket that never attached has received no ready, output or exit message |
| `ProtocolTheorems.DriverIsController` | apps/server/internal/session/attach.go:41-56 | A handler attached for control is, until its Detach, exactly the registered controller of its session |
| `ProtocolTheorems.AtMostOneDriver` | apps/server/internal/session/attach.go:41-45 | Two handlers that both drive one session are the same handler, in every reachable state |
| `ProtocolTheorems.OnlyTheControllerActs` | apps/server/internal/server/terminal.go:120-187 | Every step that reaches Write, Resize or Rename belongs to the handler that is the session's controller; a watcher never takes one |
| `ProtocolTheorems.EveryInputWasAllowed` | apps/server/internal/session/manager.go:78-120 | Every operation that ever reached a process came from a socket attached to that very session and not read-only |
| `ProtocolTheorems.ConnectionsAreDisjoint` | apps/server/internal/session/connection.go:10-19 | In every reachable state watchers are filed under their own socket and the controller is not among them |
| `ProtocolTheorems.CallbackRemovesExactly` | apps/server/internal/session/lifecycle.go:142-149 | A cleanup callback, however late, removes its session exactly if the session is in the map with the generation the callback was armed with; then no attach attempt happened since it was armed, a running session has no connection (so the connection test is implied), and with DetachedTTL <= 0 the session has exited |
| `ProtocolTheorems.WhoRemoves` | apps/server/internal/session/lifecycle.go:142-150 | A session leaves the map only by its own callback or by Shutdown; a running one that has a connection, or any running one when DetachedTTL <= 0, only by Shutdown |
| `ProtocolTheorems.NoSessionIsForgotten` | apps/server/internal/session/lifecycle.go:12-42 | With DetachedTTL > 0 every session in the map, and otherwise every exited one whose watchExit is over, has a connection or an outstanding callback of its current generation |
| `ProtocolExpiry.ExitedIsDueExactlyUndisturbed` | apps/server/internal/session/lifecycle.go:120-150 | An exited session with an outstanding callback is, in every state of a run, out of the map or still has one, if and only if no attach attempt on it happens in the run while it is in the map |
| `ProtocolExpiry.OnlyAttemptsCancel` | apps/server/internal/session/attach.go:19-44 | In a reachable state, one step leaves an exited session in the map without its callback if and only if it is an attach that names the session, accepted or rejected |
| `ProtocolExpiry.CallbackEndsIt` | apps/server/internal/session/lifecycle.go:142-149 | The callback of the current generation exists, can always take its next step, and removes an exited session when it runs |
| `ProtocolExpiry.RejectedAttachCancelsCleanup` | apps/server/internal/session/attach.go:20-44 | After a rejected attach to such a session its socket is not attached, the session is in the map, and no callback at all can remove it |
| `ProtocolExpiry.ExitedSessionStays` | apps/server/internal/session/attach.go:20-44 | A run of eleven steps from the empty server: the exit is announced and its cleanup scheduled, a second socket is turned away, and the session stays with no timer left |
| `ProtocolTheorems.RemovedIsFrozen` | apps/server/internal/session/lifecycle.go:142-162 | A session that is out of the map never comes back and none of its fields changes again, in every continuation |
| `ProtocolTheorems.ShutdownIsFinal` | apps/server/internal/session/lifecycle.go:44-52 | After Shutdown the manager stays closed and its map empty in every continuation |
| `ProtocolTheorems.OneWriterAtATime` | apps/server/internal/session/attach.go:120-144 | In every reachable state at most one goroutine is in the middle of a write to a socket |
| `ProtocolTheorems.OnlyItsWriterWrites` | apps/server/internal/session/connection.go:35-46 | Whatever a step adds to a socket, its own goroutine was writing and no other was |
| `ProtocolTheorems.NobodyWaitsForever` | apps/server/internal/session/connection.go:35-46 | Whoever holds a sessionConn mutex waits for none, and steps of the holder alone lead to a state in which the mutex is free |
| `ProtocolTheorems.ManagerLockIsOuter` | apps/server/internal/session/attach.go:120-122 | No step that takes the manager lock belongs to a holder of a sessionConn mutex, and the only mutex taken under the manager lock is new, held by nobody and awaited by nobody |
| `ProtocolLocks.HoldersNeverWait` | apps/server/internal/session/connection.go:35-46 | The next write of a holder is enabled and brings the release of its mutex closer |
| `ProtocolLocks.LockedStep` | apps/server/internal/session/connection.go:35-46 | Every step keeps the lock table equal to the set of goroutines inside a protected region |
| `ProtocolLocks.LockTableAfter` | apps/server/internal/session/attach.go:120-138 | A mutex is only ever taken free or new, and only released by the goroutine inside it |
| `ProtocolEffects.AttachesExactly` | apps/server/internal/session/attach.go:19-57 | An attach that names a session attaches exactly if the manager is open, the session is in the map, and the socket only watches or nobody else controls it; then as the watcher or controller it asked to be, registered as such; otherwise no socket changes |
| `ProtocolEffects.AttachOutcomes` | apps/server/internal/session/attach.go:14-66 | Which of the three rejections an attach gets, each exactly when; watchers are never turned away from a session in the map |
| `ProtocolEffects.CreatesExactly` | apps/server/internal/session/attach.go:68-116 | An attach without a session makes one exactly if the manager is open and the process starts, controlled by its socket |
| `ProtocolEffects.InputGoesThrough` | apps/server/internal/session/manager.go:78-98 | Input of a controller reaches its process exactly if the session is in the map and has not exited, and then changes nothing else |
| `ProtocolEffects.SayFindsItsConnection` | apps/server/internal/session/manager.go:134-147 | In every reachable state an answer to an attached socket waits for that socket's own sessionConn, is written directly before the attach, and dropped once the session is gone |
| `ProtocolEffects.SocketsChangeExactly` | apps/server/internal/session/connection.go:35-46 | A write to an open socket that does not fail arrives and nothing else does; a socket is closed by a failed write, its peer, its handler or the removal of its session, and by nothing else |
| `ProtocolEffects.HandlerPath` | apps/server/internal/server/terminal.go:56-199 | Where each step leaves a handler: back at reading, or by way of Detach, if it attached, at the end |
| `ProtocolEffects.ForwarderPath` | apps/server/internal/session/lifecycle.go:69-118 | While its session is in the map a forwarder forwards until the data ends, sends to every target in turn, then announces the exit and schedules the cleanup |
| `ProtocolEffects.HandlersCanMove` | apps/server/internal/server/terminal.go:56-199 | In every reachable state a handler that is not gone and waits for no mutex can take a step, and one that reads can take any message it may |
| `ProtocolEffects.ForwardersCanMove` | apps/server/internal/session/lifecycle.go:69-118 | In every reachable state a forwarder that is not done and waits for no mutex can take a step, whatever data or exit comes |
| `ProtocolEffects.CollectionExists` | apps/server/internal/session/connection.go:10-19 | The connections of a session can always be collected |
| `ProtocolEffects.ConnectedExactly` | apps/server/internal/session/connection.go:21-23 | A session counts as connected exactly if somebody is registered with it |
| `ProtocolEffects.DetachArms` | apps/server/internal/session/lifecycle.go:12-42 | A detach forgets its socket alone; it leaves a fresh callback 1 ms away for an exited session, one DetachedTTL away for a running one exactly if that was its last connection and the TTL is positive, and else none |
| `ProtocolEffects.ExitArms` | apps/server/internal/session/lifecycle.go:108-118 | When its exit has been announced, a session in the map has a fresh callback 1 ms away |
| `ProtocolEffects.CallbackEffect` | apps/server/internal/session/lifecycle.go:142-150 | In a reachable state, running a callback takes its session out of the map exactly if the generation is its own, and changes nothing else |
| `ProtocolEffects.FiringEffect` | apps/server/internal/session/lifecycle.go:135-139 | A callback that has started can run from then on |
| `ProtocolEffects.StopEffect` | apps/server/internal/session/lifecycle.go:126-129 | Stopping cancels exactly the callback the session points to, unless it has started |
| `ProtocolEffects.ReapStopEffect` | apps/server/internal/session/lifecycle.go:54-57 | The tail of Shutdown stops the timer of a session and changes nothing else |
| `ProtocolEffects.ShutdownEffect` | apps/server/internal/session/lifecycle.go:44-52 | Shutdown closes the manager and empties the map, and changes no session and no socket |
| `ProtocolEffects.RemovedIsClosed` | apps/server/internal/session/lifecycle.go:54-66 | In every reachable state each connection a removed session still has can be closed |
| `ProtocolEffects.OwnSessionOnly` | apps/server/internal/session/manager.go:122-132 | A rename, a chunk and an exit change exactly that of exactly their session, if it is in the map |
| `ProtocolControl.ControlledStep` | apps/server/internal/session/lifecycle.go:12-23 | Every step keeps: attached handlers are registered as they attached, and a session in the map knows only sockets whose handler still has to detach |
| `ProtocolControl.RegisteredAfterChange` | apps/server/internal/session/attach.go:27-56 | A handler that stays attached stays registered under the same sessionConn |
| `ProtocolCleanup.TimedStep` | apps/server/internal/session/lifecycle.go:120-150 | Every step keeps timers fit for their sessions and every session in the map accounted for |
| `ProtocolCleanup.ScheduleKeepsFit` | apps/server/internal/session/lifecycle.go:120-140 | After scheduling, the session has a connection or a callback with the current generation, an exited one always the latter; no callback can remove a running session with a connection |
| `ProtocolCleanup.DetachKeepsFit` | apps/server/internal/session/lifecycle.go:12-42 | The same after Detach, for an exited session or a positive TTL |
| `ProtocolCleanup.AttachKeepsFit` | apps/server/internal/session/attach.go:20-44 | An attach attempt, rejected or not, leaves no callback that could remove the session while it is wanted; the session then has a connection |
| `ProtocolCleanup.ExitStaysInOrder` | apps/server/internal/session/lifecycle.go:91-118 | No exit is recorded while data or the exit is awaited, and it stays recorded while it is sent and its cleanup scheduled |
| `ProtocolDelivery.AllDeliveredStep` | apps/server/internal/session/lifecycle.go:69-89 | Every step keeps each stream complete: received plus on its way is what is expected |
| `ProtocolDelivery.SnapshotTaken` | apps/server/internal/session/attach.go:27-56 | The replay prepared by an attach is ready, the dump of everything appended so far, and the exit if there was one |
| `ProtocolDelivery.CollectedIsAttached` | apps/server/internal/session/connection.go:10-19 | A socket is among the collected targets exactly if its handler is attached |
| `ProtocolDelivery.DeliveredAfterCollect` | apps/server/internal/session/lifecycle.go:69-80 | Appending a chunk, or recording the exit, and collecting the targets in one locked section keeps every stream complete |
| `ProtocolDelivery.DeliveredToTarget` | apps/server/internal/session/lifecycle.go:82-87 | Sending to one target, or failing to, keeps its stream a prefix |
| `SessionManager.ManagedSession.CollectConnections` | apps/server/internal/session/connection.go:10-19 | The loop returns the controller first and then every watcher, each registered connection exactly once |
| `SessionManager.ManagedSession.HasConnections` | apps/server/internal/session/connection.go:21-23 | True exactly if the session has a controller or a watcher |
| `SessionManager.Manager.StopTimer` | apps/server/internal/session/lifecycle.go:25-28 | Clears the timer; removes the callback only if it has not fired; nothing else changes in any session |
| `SessionManager.Manager.ArmCleanup` | apps/server/internal/session/lifecycle.go:135-139 | The next generation and a callback stamped with it; nothing else changes |
| `SessionManager.Manager.ScheduleCleanup` | apps/server/internal/session/lifecycle.go:120-140 | The whole table becomes what scheduling the cleanup makes of it |
| `SessionManager.Manager.AttachExisting` | apps/server/internal/session/attach.go:19-66 | Outcome and whole table of an attach that names a session: the four rejections, the timer it cancels also when rejecting, the registration and the snapshot |
| `SessionManager.Manager.AttachNew` | apps/server/internal/session/attach.go:68-110 | Outcome and whole table of an attach that creates a session; on failure nothing changes |
| `SessionManager.Manager.Detach` | apps/server/internal/session/lifecycle.go:12-42 | Forgets exactly this socket, stops the timer, and arms the cleanup that the exit state and the TTL ask for |
| `SessionManager.Manager.AppendOutput` | apps/server/internal/session/lifecycle.go:69-80 | The chunk is appended to this session alone, and the targets are its connections |
| `SessionManager.Manager.RecordExit` | apps/server/internal/session/lifecycle.go:97-106 | The exit is recorded in this session alone, and the targets are its connections |
| `SessionManager.Manager.Rename` | apps/server/internal/session/manager.go:122-132 | Only the name of this session changes; true exactly if it is in the map |
| `SessionManager.Manager.CanDrive` | apps/server/internal/session/manager.go:78-84 | True exactly for a session in the map that has not exited |
| `SessionManager.Manager.Cleanup` | apps/server/internal/session/lifecycle.go:142-150 | Removes the session exactly under the removal condition; its fields stay |
| `SessionManager.Manager.Shutdown` | apps/server/internal/session/lifecycle.go:44-52 | Closes the manager, empties the map and hands over what was in it |
| `Utf8.RuneSizeMatchesGrammar` | apps/server/internal/session/pty.go:144-146 | The size DecodeRune returns is that of the one character of RFC 3629 section 4 the text starts with, and 1 if there is none |
| `Utf8.FullRuneIsStability` | apps/server/internal/session/pty.go:144 | FullRune holds exactly if no later byte can change the size of the first rune |
| `Utf8.ValidBySegments` | apps/server/internal/session/pty.go:144-146 | Text is valid UTF-8 exactly if all its runes are characters |
| `Utf8.SegmentConcat` | apps/server/internal/session/pty.go:144-146 | The runes of a text make up the text |
| `PtyReader.RunIsFaithful` | apps/server/internal/session/pty.go:134-159 | For every byte stream and every way the reads split it: emitted chunks and carry-over are the bytes read, the carry-over is an unfinished rune of at most 3 bytes, chunks are 1 to 4100 bytes, and the runes are those of the unsplit stream |
| `PtyReader.ScanIsFinal` | apps/server/internal/session/pty.go:142-146 | The runes of the emitted part are final whatever arrives later |
| `PtyReader.RunChunksAreValid` | apps/server/internal/session/pty.go:134-159 | For valid input and every way of reading it, all chunks are valid UTF-8 if and only if the reading did not end inside a character |
| `PtyReader.WholeRunIsValid` | apps/server/internal/session/pty.go:134-159 | When all of a valid input was read, every chunk is valid |
| `PtyReader.ReplayIsEndOfRun` | apps/server/internal/session/history.go:24-49 | In every run, with a history of at least one reader buffer, replay and carry-over are the end of the bytes read, and the replay is valid text if the input is and did not end inside a character |
| `PtyReader.PassEnds` | apps/server/internal/session/pty.go:140-158 | Every read has room for 4097 bytes and takes what it gets; unless the receiver is gone, a failed read ends the loop with everything handed over, and another one leaves no complete rune behind |
| `PtyReader.ScanRunes` | apps/server/internal/session/pty.go:142-146 | The scanning loop stops at the first rune that is not complete, or at the end after an error |
| `PtyReader.CarryOver` | apps/server/internal/session/pty.go:158 | The unfinished bytes are moved to the front of the same buffer |
| `PtyReader.OnePass` | apps/server/internal/session/pty.go:140-158 | One pass on the shared buffer emits and carries over what the pass on values does |
| `PtyReader.ReadLoop` | apps/server/internal/session/pty.go:134-159 | The loop on the shared buffer emits what the run on values does, for all reads |
| `History.HistoryBuffer.constructor` | apps/server/internal/session/history.go:14-22 | An empty buffer with a limit of at least 1 |
| `History.HistoryBuffer.Append` | apps/server/internal/session/history.go:24-45 | The in-place trimming loop leaves the chunks of the specification; bytes stays their sum and at most the limit |
| `History.TrimFrontDropsFewest` | apps/server/internal/session/history.go:39-44 | Trimming keeps the longest run of newest chunks that fits |
| `History.OnlineIsOffline` | apps/server/internal/session/history.go:24-45 | For chunks within the limit, trimming after every append leaves the longest whole-chunk suffix of all output that fits |
| `History.DumpIsSuffixOfOutput` | apps/server/internal/session/history.go:47-49 | If every chunk fits or is cut on a rune boundary, the dump is the end of everything appended, and at most the limit |
| `History.AppendKeepsSuffixExactlyWhenClean` | apps/server/internal/session/history.go:28-45 | Appending a chunk keeps every buffer a suffix of the output if and only if the chunk fits or the byte at which it is cut starts a rune |
| `History.DumpIsSuffixExactlyWhenClean` | apps/server/internal/session/history.go:28-49 | A chunk may be appended after every clean output, with the dump its suffix, if and only if it fits or the byte at which it is cut starts a rune |
| `History.DirtyClipBreaksSuffix` | apps/server/internal/session/history.go:28-34 | For a cut in the middle of a rune, a one-byte chunk that, appended first, makes the dump no suffix of the output |
| `History.ClipIsValid` | apps/server/internal/session/history.go:28-34 | Cutting an oversize chunk of valid text leaves valid text |
| `History.ClipIsLongest` | apps/server/internal/session/history.go:28-34 | An oversize chunk keeps the longest of its ends that fits and starts a rune |
| `History.DumpIsValidText` | apps/server/internal/session/history.go:47-49 | If all appended chunks are valid UTF-8, oversize ones included, so is the dump |
| `TransportTheorems.AtMostOneOpenSocket` | apps/web/src/features/terminal/app/engine/transport/lifecycle/transport-socket-session.ts:32-95 | In every run at most one socket is connecting or open; every other one is closing or closed and has no listener |
| `TransportTheorems.StaleEventsChangeNothing` | apps/web/src/features/terminal/app/engine/transport/lifecycle/transport-lifecycle-service.ts:120-139 | An open, message, error or close event of an older socket or generation changes no state |
| `TransportTheorems.IntentNamesTheClosingSocket` | apps/web/src/features/terminal/app/engine/transport/lifecycle/transport-socket-session.ts:48-95 | A close intent other than normal always belongs to the current socket, which is already closing |
| `TransportTheorems.StatusIsTruthful` | apps/web/src/features/terminal/app/engine/transport/lifecycle/transport-lifecycle-service.ts:97-140 | After the first command, status connecting or reconnecting means that a current socket or an armed reconnect timer exists, and connected that the current socket has opened |
| `TransportTheorems.OneCarrier` | apps/web/src/features/terminal/app/engine/transport/lifecycle/transport-lifecycle-service.ts:291-305 | If connect is called from outside only at first and after dispose, a socket and a reconnect timer never coexist, and a pending connection has exactly one of them |
| `TransportTheorems.DisposeIsFinal` | apps/web/src/features/terminal/app/engine/transport/lifecycle/transport-lifecycle-service.ts:201-215 | After dispose, no sequence of socket and timer events makes a socket or arms a reconnect before the next command |
| `TransportTheorems.QuietStaysQuiet` | apps/web/src/features/terminal/app/engine/transport/lifecycle/transport-lifecycle-service.ts:227-262 | The same from every state without armed timer whose current socket, if any, is being disposed of |
| `TransportTheorems.RecoveryIsBounded` | apps/web/src/features/terminal/app/engine/transport/lifecycle/transport-close-plan-executor.ts:47-117 | Without a command or an open event, at most 8 - reconnectAttempt further sockets are made, plus one for a timer already armed or an immediate reconnect already asked for |
| `TransportTheorems.DelaysGrowToTheCap` | apps/web/src/features/terminal/app/engine/transport/state/transport-policy.ts:12-34 | In every run, reconnectAttempt is at most 8 and the number of delays used since its last reset; these never shrink and lie between 300 and 5000 ms |
| `TransportTheorems.UnwantedClose` | apps/web/src/features/terminal/app/engine/transport/lifecycle/transport-close-plan-executor.ts:41-117 | An unwanted close is followed by a reconnect exactly if its code is recoverable and fewer than 8 attempts were made; otherwise it ends in status error; in every case the close is reported exactly if no error of this socket was, and exhaustion is reported after it |
| `TransportTheorems.SilentPeerIsClosed` | apps/web/src/features/terminal/app/engine/transport/reliability/transport-heartbeat-monitor.ts:26-61 | With timers that run when due, an opened socket that is not closing has itself opened or sent a pong within the last 24 s |
| `TransportTheorems.HeardFromItself` | apps/web/src/features/terminal/app/engine/transport/lifecycle/transport-lifecycle-service.ts:121-132 | Only the open event of a socket and its own pongs, while it is current, count as hearing from it; no other event or command does |
| `TransportTheorems.SilentPeerIsReplaced` | apps/web/src/features/terminal/app/engine/transport/reliability/transport-socket-reliability-coordinator.ts:51-53 | The pong timeout closes the watched socket, and the close event with code 4103 arms the first reconnect |
| `TransportTheorems.AtMostOneUnansweredPing` | apps/web/src/features/terminal/app/engine/transport/reliability/transport-heartbeat-monitor.ts:28-37 | There is never more than one ping without a pong |
| `TransportProgress.ConnectAndTimerMakeSockets` | apps/web/src/features/terminal/app/engine/transport/lifecycle/transport-lifecycle-service.ts:299-305 | connect, and a reconnect timer that runs, make one new active socket, or end in a reported bootstrap failure, exactly when no socket is active |
| `TransportProgress.ConnectProgress` | apps/web/src/features/terminal/app/engine/transport/lifecycle/transport-lifecycle-service.ts:97-140 | What connect leaves: nothing changed while a socket is active; otherwise a new connecting socket and the announced status, or status error and the report |
| `TransportProgress.SwapMakesSocket` | apps/web/src/features/terminal/app/engine/transport/lifecycle/transport-lifecycle-service.ts:158-183 | A change of endpoint makes a new socket, and the old one is closing and silent |
| `TransportProgress.ReconnectCommand` | apps/web/src/features/terminal/app/engine/transport/lifecycle/transport-lifecycle-service.ts:142-199 | A manual reconnect or a fresh session resets the attempts and connects at once, or closes the active socket, whose close event then connects |
| `TransportProgress.WantedCloseConnects` | apps/web/src/features/terminal/app/engine/transport/lifecycle/transport-close-plan-executor.ts:83-87 | The close of a socket closed for a new one makes the new one, whatever the code |
| `TransportProgress.LostConnectionReturns` | apps/web/src/features/terminal/app/engine/transport/lifecycle/transport-close-plan-executor.ts:111-117 | After an unwanted close with a recoverable code and attempts left, the timer is armed for the delay of the attempt, and running it makes a socket |
| `TransportProgress.RecoverableExactly` | apps/web/src/features/terminal/app/engine/transport/state/transport-policy.ts:16-30 | The final close codes are 1000 to 1003 and 1007 to 1011 |
| `TransportProgress.Delays` | apps/web/src/features/terminal/app/engine/transport/state/transport-policy.ts:32-34 | The delays are 300, 540, 972, 1749, 3149 and then always 5000 ms |
| `TransportProgress.OpenConnects` | apps/web/src/features/terminal/app/engine/transport/lifecycle/transport-lifecycle-service.ts:121-127 | The open event of the current socket: status connected, attempts, latency and failure reset, first ping due in 12 s |
| `TransportProgress.ErrorIsReported` | apps/web/src/features/terminal/app/engine/transport/reliability/transport-socket-reliability-coordinator.ts:101-114 | The error event of the current socket is reported, with status error |
| `TransportProgress.FailedSendIsReported` | apps/web/src/features/terminal/app/engine/transport/lifecycle/transport-lifecycle-service.ts:78-91 | A send that fails on an open socket is reported, with status error; no other send changes anything |
| `TransportProgress.DisposeCloses` | apps/web/src/features/terminal/app/engine/transport/lifecycle/transport-lifecycle-service.ts:201-215 | Dispose stops all timers and closes the active socket, whose close event ends in status closed without a report; without one it ends there at once |
| `TransportProgress.PingsRegularly` | apps/web/src/features/terminal/app/engine/transport/reliability/transport-heartbeat-monitor.ts:26-38 | A ping is due every 12 s and sent, with a timeout 12 s later, exactly if none is outstanding |
| `TransportProgress.PongIsTaken` | apps/web/src/features/terminal/app/engine/transport/reliability/transport-heartbeat-monitor.ts:40-46 | A pong of the current socket disarms the timeout and publishes the time since the ping it answers |
| `TransportProgress.PingTimeIsKept` | apps/web/src/features/terminal/app/engine/transport/reliability/transport-heartbeat-monitor.ts:48-54 | Only pings and pongs change the remembered ping time, so it survives stop and start |
| `TransportProgress.AnsweringPeerIsKept` | apps/web/src/features/terminal/app/engine/transport/reliability/transport-heartbeat-monitor.ts:34-46 | In every run a pong timeout that can run belongs to the one ping sent 12 s earlier and not answered since; on time it closes no socket that was heard from within those 12 s |
| `TransportTheorems.StepKeepsInv` | apps/web/src/features/terminal/app/engine/transport/lifecycle/transport-lifecycle-service.ts:97-305 | Every command, event and timer keeps the invariant of the transport |
| `TransportTheorems.CloseKeeps` | apps/web/src/features/terminal/app/engine/transport/lifecycle/transport-lifecycle-service.ts:227-262 | Closing a socket, current or not, keeps it, keeps the status truthful and a quiet transport quiet |
| `TransportTheorems.StepSpends` | apps/web/src/features/terminal/app/engine/transport/lifecycle/transport-close-plan-executor.ts:63-118 | Each automatic socket is paid for by the budget of attempts |
| `TransportPolicy.DelaysAreMonotone` | apps/web/src/features/terminal/app/engine/transport/state/transport-policy.ts:32-34 | Reconnect delays grow with the attempt, from 300 to at most 5000 ms |
| `TransportService.TerminalTransport.Close` | apps/web/src/features/terminal/app/engine/transport/lifecycle/transport-socket-session.ts:59-61 | A connecting or open socket starts closing; a closing one stays as it is |
| `TransportService.TransportSocketSession.HasActiveConnection` | apps/web/src/features/terminal/app/engine/transport/lifecycle/transport-socket-session.ts:21-26 | True exactly if the current socket is connecting or open |
| `TransportService.TransportSocketSession.IsCurrent` | apps/web/src/features/terminal/app/engine/transport/lifecycle/transport-socket-session.ts:28-30 | True exactly for the current socket with its own generation |
| `TransportService.TransportSocketSession.Attach` | apps/web/src/features/terminal/app/engine/transport/lifecycle/transport-socket-session.ts:32-41 | The previous socket loses its listeners, the new one gets them with the next generation |
| `TransportService.TransportSocketSession.CloseActive` | apps/web/src/features/terminal/app/engine/transport/lifecycle/transport-socket-session.ts:48-62 | Closes and marks the current socket exactly if it is connecting or open |
| `TransportService.TransportSocketSession.DetachForSocketSwap` | apps/web/src/features/terminal/app/engine/transport/lifecycle/transport-socket-session.ts:64-68 | Hands over the current socket without its listeners |
| `TransportService.TransportSocketSession.ReleaseIfCurrentWithIntent` | apps/web/src/features/terminal/app/engine/transport/lifecycle/transport-socket-session.ts:70-86 | Releases exactly the current pair and returns its intent; otherwise nothing changes |
| `TransportService.TransportSocketSession.Clear` | apps/web/src/features/terminal/app/engine/transport/lifecycle/transport-socket-session.ts:88-95 | No current socket, no listeners on it, normal intent |
| `TransportService.ReliabilityCoordinator.OnConnected` | apps/web/src/features/terminal/app/engine/transport/reliability/transport-socket-reliability-coordinator.ts:73-77 | Restarts the heartbeat and forgets the last error |
| `TransportService.ReliabilityCoordinator.HandleSocketError` | apps/web/src/features/terminal/app/engine/transport/reliability/transport-socket-reliability-coordinator.ts:101-114 | Remembers the generation, reports the failure, status error |
| `TransportService.ReliabilityCoordinator.HandleSocketClose` | apps/web/src/features/terminal/app/engine/transport/reliability/transport-socket-reliability-coordinator.ts:116-124 | Stops the heartbeat and asks for a report exactly if no error of this generation was |
| `TransportService.TransportLifecycleService.Connect` | apps/web/src/features/terminal/app/engine/transport/lifecycle/transport-lifecycle-service.ts:97-140 | Does nothing while a socket is active; otherwise attaches a new one, or ends in status error |
| `TransportService.TransportLifecycleService.SendPayload` | apps/web/src/features/terminal/app/engine/transport/lifecycle/transport-lifecycle-service.ts:78-91 | A failing send is reported and ends in status error; a socket that is not open is left alone |
| `TransportService.TransportLifecycleService.ReconnectNow` | apps/web/src/features/terminal/app/engine/transport/lifecycle/transport-lifecycle-service.ts:142-156 | Closes the active socket with intent manual, or connects at once |
| `TransportService.TransportLifecycleService.ReconnectWithEndpointChange` | apps/web/src/features/terminal/app/engine/transport/lifecycle/transport-lifecycle-service.ts:158-183 | Detaches and closes the old socket before it connects |
| `TransportService.TransportLifecycleService.ScheduleFreshConnection` | apps/web/src/features/terminal/app/engine/transport/lifecycle/transport-lifecycle-service.ts:185-199 | Closes the active socket with intent fresh, or connects at once |
| `TransportService.TransportLifecycleService.DisposeTransport` | apps/web/src/features/terminal/app/engine/transport/lifecycle/transport-lifecycle-service.ts:201-215 | Closes the active socket with intent dispose, or clears it; no timer stays armed |
| `TransportService.TransportLifecycleService.OnOpen` | apps/web/src/features/terminal/app/engine/transport/lifecycle/transport-lifecycle-service.ts:121-127 | The open event of the current pair; any other changes nothing |
| `TransportService.TransportLifecycleService.OnSocketError` | apps/web/src/features/terminal/app/engine/transport/lifecycle/transport-lifecycle-service.ts:217-225 | The error event of the current pair; any other changes nothing |
| `TransportService.TransportLifecycleService.OnSocketClose` | apps/web/src/features/terminal/app/engine/transport/lifecycle/transport-lifecycle-service.ts:227-262 | The close event: release, reconciliation with an earlier error, and the close plan |
| `TransportService.TransportLifecycleService.ExecuteClosePlan` | apps/web/src/features/terminal/app/engine/transport/lifecycle/transport-close-plan-executor.ts:63-118 | Each plan's sequence of effects leads to the state of the specification |
| `TransportService.TransportLifecycleService.OnMessage` | apps/web/src/features/terminal/app/engine/transport/lifecycle/transport-lifecycle-service.ts:128-132 | The message event of the current pair; a pong is passed on, and an event of any other pair changes nothing |
| `TransportService.TransportLifecycleService.MarkPong` | apps/web/src/features/terminal/app/engine/transport/reliability/transport-socket-reliability-coordinator.ts:79-81 | A pong clears the timeout and publishes the latency of the last ping |
| `TransportService.TransportLifecycleService.OnPingTimer` | apps/web/src/features/terminal/app/engine/transport/reliability/transport-heartbeat-monitor.ts:28-37 | Pings only when no ping is unanswered |
| `TransportService.TransportLifecycleService.OnPongTimeout` | apps/web/src/features/terminal/app/engine/transport/reliability/transport-socket-reliability-coordinator.ts:51-53 | Closes the active socket, with intent normal |
| `TransportService.TransportLifecycleService.OnReconnectTimer` | apps/web/src/features/terminal/app/engine/transport/lifecycle/transport-lifecycle-service.ts:299-305 | Forgets the handle and connects |
| `Heartbeat.HeartbeatMonitor.Start` | apps/web/src/features/terminal/app/engine/transport/reliability/transport-heartbeat-monitor.ts:26-38 | Whatever ran before is stopped and the first ping is due one interval from now |
| `Heartbeat.HeartbeatMonitor.OnInterval` | apps/web/src/features/terminal/app/engine/transport/reliability/transport-heartbeat-monitor.ts:28-37 | A ping, and a timeout for it, exactly if no timeout handle is held |
| `Heartbeat.HeartbeatMonitor.MarkPong` | apps/web/src/features/terminal/app/engine/transport/reliability/transport-heartbeat-monitor.ts:40-46 | Clears the timeout; the latency is measured from the last unanswered ping |
| `Heartbeat.HeartbeatMonitor.Stop` | apps/web/src/features/terminal/app/engine/transport/reliability/transport-heartbeat-monitor.ts:48-54 | No timer stays armed; the time of the last ping is kept |
| `Outbox.OutboxState.Enqueue` | apps/web/src/features/terminal/lib/terminal-outbox.ts:43-76 | The array with its lazy head is the bounded FIFO after the enqueue; bytes is the sum of the live chunks and the head is short again |
| `Outbox.OutboxState.Flush` | apps/web/src/features/terminal/lib/terminal-outbox.ts:78-104 | Exactly the accepted chunks leave the front, in order, and are counted; the clamp of bytes changes nothing |
| `Outbox.OutboxState.SendWhileAccepted` | apps/web/src/features/terminal/lib/terminal-outbox.ts:84-98 | The loop sends in order up to the first refusal |
| `Outbox.OutboxState.DropOldest` | apps/web/src/features/terminal/lib/terminal-outbox.ts:66-74 | The loop drops the least number of oldest chunks and counts their bytes |
| `Outbox.OutboxState.CompactOutbox` | apps/web/src/features/terminal/lib/terminal-outbox.ts:27-41 | Compaction keeps the queue; afterwards head is 0, or below 128 and less than half of the array |
| `Outbox.OutboxState.Reset` | apps/web/src/features/terminal/lib/terminal-outbox.ts:106-111 | Empties the queue and the counters |
| `Outbox.ExcessIsLeast` | apps/web/src/features/terminal/lib/terminal-outbox.ts:66-74 | What stays fits, and keeping one chunk more would not |
| `Outbox.EnqueueKeepsBooks` | apps/web/src/features/terminal/lib/terminal-outbox.ts:43-76 | Queued plus dropped bytes grow by the chunk; the queue stays within the limit; the newest chunk is kept unless it alone is too long, and then nothing else is dropped |
| `Backpressure.EveryRunBalances` | apps/web/src/features/terminal/app/engine/runtime/connection-input-backpressure.ts:42-104 | In every run: delivered then queued chunks are typed chunks in order, typed bytes are delivered plus queued plus dropped, the displayed counters are true, sizes are sent at most once and in order, and a pending size is the latest |
| `Outbox.AcceptedUpToRefusal` | apps/web/src/features/terminal/lib/terminal-outbox.ts:84-98 | A flush goes up to the first refusal and uses no answer after it |
| `TextEncoding.CountsEncodedBytes` | apps/web/src/features/terminal/lib/terminal-format.ts:5-7 | The bytes counted for a string are those of its UTF-8 encoding by RFC 3629, surrogates paired or replaced, and that encoding is valid |
| `Backpressure.DeliveredAtOnceExactly` | apps/web/src/features/terminal/app/engine/runtime/connection-input-backpressure.ts:67-81 | A typed chunk is delivered at once, after everything queued, exactly if the socket accepts all of that and the chunk |
| `Backpressure.WaitsOrIsDropped` | apps/web/src/features/terminal/app/engine/runtime/connection-input-backpressure.ts:67-81 | Otherwise it is last in the queue, unless it is empty or longer than 512 KiB, and only what does not fit is dropped |
| `Backpressure.FlushDelivers` | apps/web/src/features/terminal/app/engine/runtime/connection-input-backpressure.ts:83-97 | A flush delivers the first n queued chunks exactly if the socket accepts n sends |
| `Backpressure.WatchersSendNothing` | apps/web/src/features/terminal/app/engine/runtime/connection-input-backpressure.ts:42-97 | In watch mode typing changes nothing, a flush forgets everything, and a size is neither sent nor pending |
| `Backpressure.SizeIsSentOrPending` | apps/web/src/features/terminal/app/engine/runtime/connection-input-backpressure.ts:42-65 | A new size is sent at once if the socket accepts it, else it is pending until a flush the socket accepts |
| `Backpressure.ResetForgets` | apps/web/src/features/terminal/app/engine/runtime/connection-input-backpressure.ts:99-104 | A reset leaves no queue, no pending size and no counters, and sends nothing |
| `Backpressure.StepKeeps` | apps/web/src/features/terminal/app/engine/runtime/connection-input-backpressure.ts:67-104 | Every input, flush and reset keeps the books and the displayed counters |
| `Backpressure.InputKeeps` | apps/web/src/features/terminal/app/engine/runtime/connection-input-backpressure.ts:67-81 | A typed chunk is delivered last, queued last, or dropped, never reordered |
| `Backpressure.StepKeepsSizes` | apps/web/src/features/terminal/app/engine/runtime/connection-input-backpressure.ts:42-65 | No older size is sent after a newer one |
| `ConnectionInput.ConnectionInputBackpressure.SendResize` | apps/web/src/features/terminal/app/engine/runtime/connection-input-backpressure.ts:42-54 | Sends the size or makes it the pending one; in watch mode neither |
| `ConnectionInput.ConnectionInputBackpressure.FlushPendingResize` | apps/web/src/features/terminal/app/engine/runtime/connection-input-backpressure.ts:56-65 | What it sends is the latest size |
| `ConnectionInput.ConnectionInputBackpressure.HandleRuntimeInput` | apps/web/src/features/terminal/app/engine/runtime/connection-input-backpressure.ts:67-81 | The new state of the buffers, and on the wire exactly the chunks counted as delivered |
| `ConnectionInput.ConnectionInputBackpressure.FlushQueuedInput` | apps/web/src/features/terminal/app/engine/runtime/connection-input-backpressure.ts:83-97 | The same for a flush; in watch mode everything is forgotten |
| `ConnectionInput.ConnectionInputBackpressure.ResetQueuedBuffers` | apps/web/src/features/terminal/app/engine/runtime/connection-input-backpressure.ts:99-104 | Forgets queue, pending size and counters, and sends nothing |
| `RefreshCoordinator.SupersededIsSilent` | apps/web/src/features/terminal/session/application/session-refresh-coordinator.ts:169-289 | Once a newer request exists or the owner unmounted, a request makes no callback in any continuation |
| `RefreshCoordinator.PublishedIdsIncrease` | apps/web/src/features/terminal/session/application/session-refresh-coordinator.ts:235-289 | Published results come in strictly increasing order of their requests, and a request that failed publishes nothing |
| `RefreshCoordinator.AtMostOneLiveFetch` | apps/web/src/features/terminal/session/application/session-refresh-coordinator.ts:146-168 | Of all fetches that have not settled at most one is not aborted, and it is the latest request's |
| `RefreshCoordinator.PendingOnlyWhileActive` | apps/web/src/features/terminal/session/application/session-refresh-coordinator.ts:126-153 | A trigger is pending only for the latest request, while that is active and unfinished |
| `RefreshCoordinator.EveryTriggerIsServed` | apps/web/src/features/terminal/session/application/session-refresh-coordinator.ts:126-145 | In every run, a trigger superseded by an active request is queued behind it, and once that request has finished a later fetch was started, unless the owner unmounts or an already aborted manual request comes in between |
| `RefreshCoordinator.SupersededIsServed` | apps/web/src/features/terminal/session/application/session-refresh-coordinator.ts:300-312 | The same from any state in which what was superseded is queued |
| `RefreshCoordinator.FinallyServes` | apps/web/src/features/terminal/session/application/session-refresh-coordinator.ts:300-312 | The finally of the active request starts that fetch with the strongest waiting trigger |
| `RefreshCoordinator.StepOwes` | apps/web/src/features/terminal/session/application/session-refresh-coordinator.ts:126-153 | A step keeps every superseded trigger queued if and only if it is not a manual request, with an already aborted signal, made while one waits |
| `RefreshCoordinator.AbortedManualLosesTrigger` | apps/web/src/features/terminal/session/application/session-refresh-coordinator.ts:146-168 | A run in which a trigger is superseded, all requests finish, and no fetch has followed it |
| `RefreshCoordinator.CallbacksMatchResults` | apps/web/src/features/terminal/session/application/session-refresh-coordinator.ts:211-289 | In every run a request is told of success exactly if it returned success, and of a failure exactly if it failed and was neither aborted nor superseded |
| `RefreshCoordinator.ContinuationAnswers` | apps/web/src/features/terminal/session/application/session-refresh-coordinator.ts:211-289 | Result and callbacks of every branch after the race, the first case that applies |
| `RefreshCoordinator.FirstDecides` | apps/web/src/features/terminal/session/application/session-refresh-coordinator.ts:187-210 | The first of settling, abort and timeout decides a request, and a decided request can continue |
| `RefreshCoordinator.RequestIsTaken` | apps/web/src/features/terminal/session/application/session-refresh-coordinator.ts:126-182 | A request is queued exactly if it is not manual and another is active; otherwise it starts a fetch at once unless its caller has aborted it |
| `RefreshCoordinator.StepStaysArbitrated` | apps/web/src/features/terminal/session/application/session-refresh-coordinator.ts:122-314 | Every step keeps the active request the latest and all other fetches aborted or settled |
| `RefreshCoordinator.StepKeepsCalls` | apps/web/src/features/terminal/session/application/session-refresh-coordinator.ts:235-289 | Every step keeps the callbacks in the order of the requests |
| `RefreshCoordinator.SessionRefreshCoordinator.RequestSessionRefresh` | apps/web/src/features/terminal/session/application/session-refresh-coordinator.ts:123-178 | Queues the trigger behind the active request, or aborts that and starts a new one |
| `RefreshCoordinator.SessionRefreshCoordinator.OnTimeout` | apps/web/src/features/terminal/session/application/session-refresh-coordinator.ts:203-209 | Marks and aborts its request |
| `RefreshCoordinator.SessionRefreshCoordinator.ContinueRefresh` | apps/web/src/features/terminal/session/application/session-refresh-coordinator.ts:211-289 | The result and the callbacks of every branch after the race |
| `RefreshCoordinator.SessionRefreshCoordinator.FinishRefresh` | apps/web/src/features/terminal/session/application/session-refresh-coordinator.ts:290-312 | Releases the controller and serves the pending trigger |
| `RefreshCoordinator.SessionRefreshCoordinator.Unmount` | apps/web/src/features/terminal/session/application/session-refresh-coordinator.ts:97-104 | Aborts the active request and makes it stale; nothing stays pending |
| `RefreshPolling.OneRequestOrOneTimer` | apps/web/src/features/terminal/session/application/bindings/session-refresh-binding.ts:54-140 | While the menu is open there is exactly one of a request in flight and an armed timer (both only between then and finally, exactly if the outcome was a bootstrap error or opened the circuit and its timer has not run); after disposal no timer is armed and a request in flight is aborted |
| `RefreshPolling.NothingAfterDisposal` | apps/web/src/features/terminal/session/application/bindings/session-refresh-binding.ts:143-149 | After disposal no timer is armed and no request is made, whatever still settles |
| `RefreshPolling.CircuitOpensAtTheLimit` | apps/web/src/features/terminal/session/application/bindings/session-refresh-binding.ts:111-130 | The circuit opens exactly at the sixth counted failure since the last success, bootstrap error or cooldown; ignored outcomes leave the count alone |
| `RefreshPolling.TimersFollowTheHistory` | apps/web/src/features/terminal/session/application/bindings/session-refresh-binding.ts:54-90 | An armed timer waits 60 s after the sixth counted failure, 30 s after a bootstrap error, and else the back-off of the failures counted since the last reset |
| `RefreshPolling.PollsBackOff` | apps/web/src/features/terminal/session/application/bindings/session-refresh-binding.ts:54-63 | With the circuit closed the next poll waits 4 to 32 s, by the number of counted failures |
| `RefreshPolling.BackoffGrows` | apps/web/src/features/terminal/session/application/session-refresh-policy.ts:8-16 | Delays grow with the failures and lie between 4 and 32 s |
| `RefreshPolling.StepStaysSound` | apps/web/src/features/terminal/session/application/bindings/session-refresh-binding.ts:47-149 | Every step keeps the loop sound, and a disposed loop idle |
| `RefreshPolling.RefreshLoop.HandleResult` | apps/web/src/features/terminal/session/application/bindings/session-refresh-binding.ts:111-130 | Counts, resets, retries or opens the circuit, by the kind of the outcome |
| `RefreshPolling.RefreshLoop.HandleFinally` | apps/web/src/features/terminal/session/application/bindings/session-refresh-binding.ts:131-139 | Arms the next poll unless another timer is armed or the circuit is open |
| `RefreshPolling.RefreshLoop.HandleTimer` | apps/web/src/features/terminal/session/application/bindings/session-refresh-binding.ts:59-90 | Runs the loop; after a cooldown with the circuit closed and the count at zero |
| `RefreshPolling.RefreshLoop.Dispose` | apps/web/src/features/terminal/session/application/bindings/session-refresh-binding.ts:143-149 | Aborts the request in flight and disarms the timer |
| `SplitArgs.SplitArgs` | apps/server/internal/config/config.go:230-316 | The loop over flags and builder returns the specified arguments or error |
| `SplitArgsGrammar.SplitIsParse` | apps/server/internal/config/config.go:230-316 | The machine reads exactly a grammar of pieces: plain runes, escapes, single and double quotes; which arguments a text has, and which texts end in an unterminated escape or quote |
| `SplitArgsGrammar.SplitReadsWhatIsWritten` | apps/server/internal/config/config.go:252-304 | Every list of arguments is read back, each written in single quotes, in double quotes, or with a backslash before every rune |
| `SplitArgsGrammar.SpacesExactly` | apps/server/internal/config/config.go:283 | The separators are exactly the 25 runes with the property White_Space |
| `SplitArgs.SplitUndoesJoin` | apps/server/internal/config/config.go:230-316 | Quoting each argument with single quotes and joining with spaces is undone by splitting, for every list of arguments |
| `SplitArgs.SplitOfTwo` | apps/server/internal/config/config.go:252-304 | If a splits, a space and b split as the arguments of a followed by those of b, or fail as b fails |
| `SplitArgs.PlainTextSplitsAtSpaces` | apps/server/internal/config/config.go:283-303 | Text without quotes and backslashes splits into its words |

## Left out

- ProtocolTheorems.ReceivedTextIsContiguous: asks that the chunks before the attach fit the history or are cut on a rune boundary, because the replay of others need not be the end of the output (`History.DumpIsSuffixExactlyWhenClean`); `PtyReader.RunIsFaithful` bounds the chunks of a real terminal by 4100 bytes.
- RefreshCoordinator.EveryTriggerIsServed: excludes unmounting and a manual request whose signal is aborted before the call, because the code then drops the trigger (`StepOwes` says exactly when).
- TransportTheorems.SilentPeerIsClosed: assumes timers that run exactly when due; all other transport results hold for timers that run at any time.
- SessionManager.Manager.AppendOutput: asks that the session's connections are disjoint, as does `RecordExit`; `ProtocolTheorems.ConnectionsAreDisjoint` proves that of every reachable state.
- SessionManager.Manager.AttachExisting: does not model the resize of the process that an attach for control performs, because the terminal size is state of the operating system.
- The handler and forwarder goroutines are values in `Protocol`, not objects; the sessions they share are objects in `SessionManager` only under the manager lock.
- `cleanupGeneration` is a `uint64` in the code and unbounded here.
- Times of last activity, `ListSessions`, creation time and command line.
- The time between arming and running a cleanup callback: a callback may run at any time.
- The text of error and pong messages: a handler may send one whenever it is reading, which covers the cases in which it does.
- Failures of writing to a process, and the set of open connections that the server closes when it stops.
- Pseudo-terminals, processes, signals and the bounded drain before exit: a process is a stream of chunks and then at most one exit.
- WebSockets, HTTP, deadlines, authentication, origin checks, JSON and URL parsing: a write appends a message or fails and closes the socket; messages are already decoded.
- Session identifiers from `uuid.NewString` are assumed new.
- Throttling of failure notices; a failure is reduced to its kind, and a bootstrap failure to its happening.
- `1.8 ** attempt` is exact here and floating point in the code.
- Calls back into the transport from inside a handler: they are modelled as the next event. New sockets are connecting, and closing one delivers its events later.
- Calls to the refresh coordinator from inside its callbacks: all callbacks of one continuation are made in one step.
- The channel between read loop and forwarder: `ProtocolStream` assumes that it hands over the chunks in order.
- The callbacks of the polling loop to the interface when the circuit opens.
- The 750 ms spacing of transport refreshes, session candidates, storage, rendering and notices.
- A byte string that is not valid UTF-8 as `WOOTTY_COMMAND_ARGS`: arguments are sequences of runes; an empty list and a nil one are the same.
