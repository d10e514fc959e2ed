# A Dafny model of the `ws` WebSocket fan-out hub

This project models the decision logic of a small Go library that accepts
WebSocket connections, turns every message a client sends into an event,
and broadcasts a response to every connected client. The repository holds
two variants of the hub, and both are modelled:

- The hub in `sockets.go`. A failed upgrade is reported on the error
  channel and registers nothing. A successful upgrade registers the
  connection with the annotation `""` and starts a read loop. The read loop
  tags every message with its connection and sends it to the client channel,
  and sends every read error to the error channel. The dispatch loop takes
  one event at a time and switches on `MessageType`: 1 broadcasts the
  message as text, 2 broadcasts a `JSONResponse` carrying only the message,
  and anything else sends one "invalid message type" error. Each broadcast
  writes to every registered client once. A client whose write fails is
  closed and deleted from the registry.
- The hub in `websockets.go`. It registers whatever the upgrade
  returned, even after a failed upgrade (the nil connection). Its read loop
  drops read errors silently. Its relay answers every event with a response
  carrying the event's message, with no type switch and no error path.

A write to the nil connection panics, and neither dispatch loop recovers.
The model follows this: a broadcast over a registry that holds the nil
connection panics when it reaches it, keeping the writes and deletions it
made before, and the loop stops there. In websockets.go a single failed
upgrade is enough to reach that state (see "## Findings"). sockets.go never
registers the nil connection, so its dispatch loop never panics
(`SocketsHub.TakeNeverPanics`).

Connections are opaque identities (`Transport.Conn`). Every call into the
WebSocket library becomes an outcome the caller supplies:
- an upgrade succeeds with a fresh handle or fails with a reason;
- a read yields a decoded message or an error;
- a broadcast's writes fail for a caller-chosen set of clients.

The registry is a map from connection to annotation. Broadcasts are modelled
twice, both recording an ordered log of writes, closes and deletes:
- as a method that visits the clients in an arbitrary order;
- as a ghost function (`Registry.Sweep`) that visits them in one fixed but
  unspecified order, which the dispatch loops use.
Both are proved against the same log predicate (`Registry.BroadcastLog`).

Channels are the sequences of values sent on them.

Modules: `Transport` (connections and library outcomes), `Registry` (the
client map and the pruning broadcast shared by both hubs), `EventLoop` (the
one-event-at-a-time loop shape both dispatch loops share), `Sockets`
(`sockets.go`), `WebSockets` (`websockets.go`) and `SocketsHub` (the
`sockets.go` operations composed into one hub state, each call one atomic
step).

Both read loops go on after a read error and never touch the registry
(`Sockets.ListenForWSContinuesAfterError`, `SocketsHub.ReadErrorKeepsClient`,
`WebSockets.ListenForWSIgnoresError`). Clients leave the registry only when
a broadcast write to them fails.

## Model

| member | source | states |
|---|---|---|
| Registry.Register | sockets.go:90-92 | registering adds exactly the connection with annotation `""`, keeps every other entry, and grows the registry by one when the connection is new |
| Registry.Prune | sockets.go:147-151 | deleting the failed clients leaves exactly the other clients with their annotations; nothing is added |
| Registry.PruneUndoesRegister | sockets.go:91 | deleting a freshly registered connection gives back the registry as it was before registration |
| Registry.PruneTwice | sockets.go:143-153 | two pruning passes remove exactly the union of their failure sets |
| Registry.VisitExtendsLog | sockets.go:144-151 | one loop iteration extends the log by one write to a new client, followed for a failing client by its close and its delete |
| Registry.VisitsLog | sockets.go:144-152 | visiting distinct clients in any order writes each exactly once, closes and deletes exactly the failing ones, a close directly after its failed write and a delete directly after its close |
| Registry.BeforeNil | websockets.go:99-101 | the clients a walk reaches before the write to the nil connection panics: a prefix of the iteration order holding no nil connection, all of it when it holds none, and otherwise followed by the nil connection |
| Registry.Sweep | sockets.go:144-152 | one broadcast in some iteration order panics exactly when the nil connection is registered; it visits only registered clients other than the nil one, all of them when it does not panic; it writes each visited client once, closes and deletes exactly the visited failing ones, and leaves the registry pruned by them |
| Registry.BroadcastPruning | sockets.go:143-153 | in any iteration order: the broadcast panics exactly when the nil connection is registered; without a panic every client present at the start gets exactly one write, exactly the failing ones are closed and then deleted, and the registry afterwards is the one before minus the failing clients; with a panic the same holds for the clients visited before the nil connection |
| EventLoop.Drain | sockets.go:125-138 | the loop takes at most one handling per event; it stops early only on a handling that panics, and then at the first one |
| EventLoop.DrainAppend | sockets.go:125-138 | draining two batches equals draining the first and, unless it panicked, then the second from the registry the first left |
| EventLoop.DrainSequential | sockets.go:125-137 | events are taken in arrival order, and every event taken is handled against exactly the registry the earlier events left, so each event, including its broadcast, finishes before the next is taken |
| EventLoop.DrainKeeps | sockets.go:125-138 | a registry property that every handling keeps, and under which no handling panics, keeps the loop running over every event |
| EventLoop.DrainPrunes | sockets.go:143-153 | when each handling that does not panic only prunes the registry, a loop that does not panic removes exactly the clients some event removes, adds none, and keeps the survivors' annotations |
| Sockets.SocketEndPoint | sockets.go:76-96 | a failed upgrade reports one error, registers nothing and starts no read loop; a successful one registers exactly the new connection with `""`, leaves other entries unchanged and starts its read loop; the nil connection is never registered |
| Sockets.ListenForWS | sockets.go:99-120 | one send per read, in read order: a successful read is forwarded tagged with the reading connection, a failed read is reported as a read error |
| Sockets.ListenForWSChannels | sockets.go:110-119 | the client channel receives exactly the successful reads in order, each tagged with its connection; the error channel receives exactly the failed reads in order |
| Sockets.ListenForWSAppend | sockets.go:110-119 | two runs of reads are handled independently, nothing carried over from one to the next |
| Sockets.ListenForWSContinuesAfterError | sockets.go:110-114 | a read error is reported once and does not stop the loop: the reads after it are handled as if the loop had started with them |
| Sockets.Dispatch | sockets.go:128-137 | message type 1 if and only if a text broadcast of the message; type 2 if and only if a JSON broadcast of a response with the message, no data and no connection; any other type gives an invalid-message-type error carrying that type |
| Sockets.DispatchJSONWire | sockets.go:63-68 | the JSON response to a type-2 event encodes to an object whose only member is `message`, equal to the event's message |
| Sockets.Process | sockets.go:126-137 | the action follows the dispatch switch; an invalid event writes nothing and leaves the registry unchanged; a broadcast panics exactly when the nil connection is registered; it writes the action's frame once to every client it visits, which are registered clients other than the nil one, closes and deletes exactly the visited failing ones and leaves the registry pruned by them; without a panic it visits every registered client |
| Sockets.ListenToWsChannelTrace | sockets.go:125-137 | about the dispatch loop `Sockets.ListenToWsChannel`: one handling per event taken, in arrival order; each action is the dispatch switch on its event; each broadcast panics exactly when the registry the earlier events left holds the nil connection, writes each client it visits in that registry once and closes and deletes exactly the visited failing ones, and without a panic visits all of that registry |
| Sockets.ListenToWsChannelPrunes | sockets.go:125-137 | about `Sockets.ListenToWsChannel`: from a registry without the nil connection the loop never panics, handles every event, and leaves the initial registry minus exactly the clients whose write failed during some broadcast |
| Sockets.BroadcastJSONToAll | sockets.go:142-154 | the JSON response is written once to every client present at the start and exactly the failing clients are closed, then deleted; the write to a registered nil connection panics, leaving it registered and unwritten, after the clients visited before it were written once and the failing ones among them closed, then deleted |
| Sockets.BroadcastTextToAll | sockets.go:157-169 | the text is written once to every client present at the start and exactly the failing clients are closed, then deleted; the write to a registered nil connection panics, leaving it registered and unwritten, after the clients visited before it were written once and the failing ones among them closed, then deleted |
| SocketsHub.Step | sockets.go:76-139 | read loops are never stopped; a read, failed or not, never changes the registry; only a successful upgrade adds a client, and only its own connection; the error channel is only appended to |
| SocketsHub.ListenOnce | sockets.go:111-118 | one read-loop iteration sends the tagged message on the client channel or its error on the error channel |
| SocketsHub.StepValid | sockets.go:78-95 | every step keeps the nil connection out of the registry, keeps every registered client on a running read loop, and keeps every waiting event from such a loop |
| SocketsHub.RunHubValid | sockets.go:76-139 | the same invariant holds after any sequence of steps |
| SocketsHub.TakeNeverPanics | sockets.go:78-82 | because a failed upgrade returns before registering, a valid hub holds no nil connection, so taking an event never panics |
| SocketsHub.ReadErrorKeepsClient | sockets.go:111-113 | a failed read appends one read error and changes nothing else: the client stays registered and its read loop keeps running |
| SocketsHub.InvalidTypeReported | sockets.go:135-136 | an event of an unsupported type is consumed, reported once, broadcast to nobody, and the registry is unchanged |
| SocketsHub.ConnectAddsOne | sockets.go:89-92 | a successful upgrade with an unregistered handle adds exactly that handle and one client |
| SocketsHub.ConnectsRegisterEach | sockets.go:89-92 | successful upgrades with distinct, unregistered handles register exactly those handles |
| SocketsHub.ConnectsCount | sockets.go:89-92 | N such upgrades grow the registry by exactly N |
| WebSockets.SocketEndPoint | websockets.go:45-60 | whatever the upgrade returned is registered with `""` and listened to, other entries unchanged; after a failed upgrade that is the nil connection, because there is no early return |
| WebSockets.ListenForWS | websockets.go:63-85 | the output is exactly the successful reads, in order, each tagged with the reading connection; on the nil connection the first read panics, the deferred recover ends the loop, and nothing is sent |
| WebSockets.ListenForWSAppend | websockets.go:75-84 | two runs of reads are handled independently, nothing carried over |
| WebSockets.ListenForWSIgnoresError | websockets.go:76-78 | a read error produces no send and does not end the loop |
| WebSockets.Relay | websockets.go:90-93 | every event's response encodes to an object whose only member is `message`, equal to the event's message; the connection field is left nil |
| WebSockets.Process | websockets.go:91-93 | every event is answered with the relay response; the broadcast panics exactly when the nil connection is registered; it writes the response once to every client it visits, which are registered clients other than the nil one, closes and deletes exactly the visited failing ones and leaves the registry pruned by them; without a panic it visits every registered client |
| WebSockets.ListenToWsChannelTrace | websockets.go:90-94 | about the relay loop `WebSockets.ListenToWsChannel`: one broadcast per event taken, in arrival order; the i-th response encodes to an object whose only member is the i-th event's message; it panics exactly when the registry the earlier events left holds the nil connection, writes each client it visits in that registry once and closes and deletes exactly the visited failing ones, and without a panic visits all of that registry |
| WebSockets.ListenToWsChannelPrunes | websockets.go:90-94 | about `WebSockets.ListenToWsChannel`: from a registry without the nil connection the relay never panics, handles every event, and leaves the initial registry minus exactly the clients whose write failed |
| WebSockets.ListenToWsChannelCrashes | websockets.go:90-101 | from a registry holding the nil connection the first event's broadcast panics and the relay ends there, the nil connection still registered |
| WebSockets.FailedUpgradeCrashesRelay | websockets.go:46-59 | after a failed upgrade the next event the relay takes panics and ends it, whatever was registered before |
| WebSockets.GuardedEndPoint | websockets.go:46-56 | registration with an early return after a failed upgrade registers nothing on failure, registers like the code on success, and never introduces the nil connection |
| WebSockets.GuardedEndPointKeepsRelay | websockets.go:46-56 | with the early return, no connection attempt can make the relay panic: every later event is relayed |
| WebSockets.BroadcastToAll | websockets.go:98-107 | the response is written once to every client present at the start and exactly the failing clients are closed, then deleted, nothing added; the write to a registered nil connection panics, leaving it registered and unwritten, after the clients visited before it were written once and the failing ones among them closed, then deleted |

## Left out

- The HTTP upgrade, `websocket.Upgrader`, `CheckOrigin`, and the read and write buffer sizes: these are library configuration. An upgrade is an outcome the caller supplies.
- JSON encoding and decoding, and frame opcodes. A response is modelled by the members its object carries (`Sockets.Wire`, `WebSockets.Wire`), not by wire bytes. A decoded read is its fields. Fields carried over when the `payload` variable is reused across `ReadJSON` calls are not modelled, because they depend on the JSON decoder.
- Goroutines, blocking on the unbuffered channels and `clientsMutex`: these exist for concurrency. Each call is one atomic step, and a channel is the sequence of values sent on it. A panic is a flag on the handling that ends the loop, not a process exit.
- `Close()` ignores its result, so a close is a log entry with no outcome.
- The text of the invalid-message-type error (`fmt.Errorf` with `%d`) is the constructor `InvalidMessageType` carrying the number.
- Logging and the tests' sleeps.
- Map iteration order: the broadcast method picks an arbitrary unvisited client, and every contract holds for every order. The dispatch loops use one fixed but unspecified order per registry (`Registry.Sweep`), so they do not model a different order on each broadcast; only which clients get visited before a panic depends on the order.
- Sockets.ListenForWS: a read on the nil connection would panic and its deferred `recover()` would end the loop; the model does not cover that input, because sockets.go never starts a read loop on it (`SocketsHub.StepValid`).
- Deregistration on read failure, write timeouts and crash-safe cleanup are not modelled, because the code does not implement them.
- `New` and the package-level registry and channel of websockets.go only allocate state. The atomic-step composition (`SocketsHub`) exists only for sockets.go. The websockets.go operations are modelled one by one.

## Findings

| source | as written | input that shows it | evidently intended | confidence | as-written member | corrected member |
|---|---|---|---|---|---|---|
| websockets.go:46-59 | a failed upgrade is only logged, then `WebSocketConnection{nil}` is registered and listened to | one failed upgrade, then any message from any client | return after the error, as sockets.go:78-82 does, so nothing is registered | high; not executed | WebSockets.FailedUpgradeCrashesRelay | WebSockets.GuardedEndPointKeepsRelay |
