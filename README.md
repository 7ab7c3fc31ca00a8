# any-xterm server: shared-state model

The any-xterm server runs one shell command forever. It streams every line the command
writes to all connected WebSocket viewers. It keeps the last 1000 lines so that a viewer who
joins late is first replayed that history. This project models the server's shared state
(`server/src/main.rs`) in Dafny and proves what its operations guarantee:

- **History** (`history.dfy`): `OutputHistory`, a bounded FIFO of text lines. A ghost log of
  every line added since creation or the last clear makes the FIFO law an object invariant.
  The stored lines are always the newest `Capacity(max_lines)` lines of that log, oldest
  first. `max_lines` of 1 or more bounds the length. With `max_lines == 0` the code still
  keeps one line, which `Capacity` records.
- **Registry** (`registry.dfy`): `ServerState`, which pairs the history with the map from
  client id to sink. Each public method is one critical section of the source's `Mutex`,
  taken as one atomic step; `SendToAll` and `RemoveClients` are helpers for the two phases
  inside `Broadcast`'s critical section. A `Sink` is the sending half of a connection, recorded as the messages it
  has received. Whether a send succeeds is a parameter: a set of failing client ids for a
  broadcast, and a set of failing send indices for a replay. `broadcast` works in two
  phases. `SendToAll` sends to every client and leaves the map's key set unchanged.
  `RemoveClients` then drops the ids collected as failed. `Fanout` is the reference for one
  broadcast and `FanoutAll` for a run of them.
- **Connection** (`connection.dfy`): what `handle_connection` does after the handshake, as a
  `Handler` with a phase (`Replaying`, `Replayed`, `Registered`, `Closed`). Its three
  methods are the source's three separate lock scopes: replay, insert, remove. Because the
  lock is released in between, other operations may run between any two of them.
- **Supervisor** (`supervisor.dfy`): the rule `run_command` applies to output lines.
  Standard output passes unchanged; standard error gets the prefix `"错误: "`. The module
  also models one generation of the restart loop. The two reader tasks' lines and the
  connection handlers' inserts and removes reach the state in some interleaving, given as a
  schedule of events and applied in order. Once a stream ends, `clear_history` replaces the
  history with the reset line `ESC[2J ESC[H`.

Constants: `Registry.Reset` (main.rs:92), `Registry.MaxHistoryLines` = 1000 (main.rs:102),
`Supervisor.ErrorMarker` (main.rs:158).

Points where the code's behaviour is easy to misread, and what the model does with them:

- The replay and the insert are separate lock scopes: the lock is dropped after the replay
  (main.rs:200) and taken again for the insert (main.rs:204). A line broadcast in between is
  neither replayed to nor delivered to the joining viewer. The model keeps them as separate
  steps and does not claim exactly-once delivery across the join.
- `add_line` with `max_lines == 0` keeps one line, so the bound `len <= max_lines` needs
  `max_lines >= 1`. `main` uses 1000, so this never shows at run time.
- `clear_history` empties the deque in place (main.rs:90). The model does this through
  `OutputHistory.Clear`, so the ghost log is reset together with the lines.

## Model

| member | source | states |
|---|---|---|
| History.Capacity | server/src/main.rs:42-47 | the number of lines add_line retains: max_lines itself when it is at least 1, and 1 when it is 0 |
| History.Window | server/src/main.rs:49-51 | the newest n lines of a log, oldest first; its length is min(length, n) |
| History.Added | server/src/main.rs:42-47 | after add_line the new line is the newest entry; the oldest entry is dropped exactly when the old length was at least max_lines and the deque was non-empty; the capacity bound is preserved; with max_lines 0 and at most one old line, only the new line remains |
| History.AddedKeepsNewest | server/src/main.rs:42-47 | what add_line keeps of the old lines is their newest part, in order, followed by the new line |
| History.AddedWindow | server/src/main.rs:42-47 | add_line applied to the window of a log gives the window of the log extended by that line (the FIFO step) |
| History.OutputHistory.constructor | server/src/main.rs:35-40 | a new history is empty and has the given capacity |
| History.OutputHistory.AddLine | server/src/main.rs:42-47 | the lines become Added(old lines, max_lines, line); the log grows by the line; the invariant "lines are the newest Capacity lines of the log" is kept; with max_lines at least 1 the length stays at most max_lines |
| History.OutputHistory.GetAll | server/src/main.rs:49-51 | the snapshot is exactly the last Capacity(max_lines) lines added since creation or the last clear, oldest first, and at most Capacity lines long; as a function it changes nothing |
| History.OutputHistory.Clear | server/src/main.rs:90 | the history is empty afterwards and its capacity unchanged |
| Registry.Send | server/src/main.rs:76 | a successful send appends the message to the sink; a failed send leaves the sink unchanged |
| Registry.Fanout | server/src/main.rs:68-86 | after a broadcast a client is registered exactly when it was registered before and its send did not fail; every survivor received the message exactly once, as its newest message |
| Registry.FanoutAll | server/src/main.rs:142-159 | one broadcast per relayed line, in order; a run of broadcasts only ever removes clients |
| Registry.FanoutAllLaw | server/src/main.rs:68-86 | over a run of broadcasts a client stays registered exactly when none of its sends failed, and then it received every message once, in broadcast order; a removed client never returns |
| Registry.MainHistoryBound | server/src/main.rs:102 | a history built with the capacity main uses (1000) never holds or serves more than 1000 lines |
| Registry.UnregisterUndoesRegister | server/src/main.rs:205-221 | inserting a fresh id and later removing it gives back the map as it was before the insert |
| Registry.ServerState.constructor | server/src/main.rs:61-66 | a new state has an empty history of the given capacity and no clients |
| Registry.ServerState.Broadcast | server/src/main.rs:68-86 | the message is appended to the history by add_line; the client map becomes Fanout(old map, message, failing) |
| Registry.ServerState.SendToAll | server/src/main.rs:73-79 | the send pass leaves the key set unchanged; each client's sink is the result of one send; the collected ids are exactly the registered clients whose send failed |
| Registry.ServerState.RemoveClients | server/src/main.rs:81-85 | the removal pass drops exactly the collected ids and leaves every other sink unchanged |
| Registry.ServerState.ClearHistory | server/src/main.rs:88-93 | afterwards the history is exactly the reset line, the clients whose send failed are removed, and every surviving client has the reset line as its newest message |
| Registry.SendSnapshot | server/src/main.rs:194-199 | the replay loop succeeds exactly when no send fails; on success the sink received the whole snapshot in order; on failure it stops at the first failing send, having received only the lines before it |
| Registry.ServerState.ReplayHistory | server/src/main.rs:191-200 | the replay of the history snapshot succeeds exactly when none of its sends fails; on success the sink received every history line, oldest first; on failure only the lines before the first failing send; the state is not changed |
| Registry.ServerState.Register | server/src/main.rs:205 | the client map becomes the old map with id mapped to the sink; the history is untouched |
| Registry.ServerState.Unregister | server/src/main.rs:221 | only the given id is removed; a missing id leaves the map unchanged; the history is untouched |
| Connection.Handler.constructor | server/src/main.rs:187-188 | a handler starts in the replay phase with its UUID and its sending half |
| Connection.Handler.Replay | server/src/main.rs:191-200 | the handler stays unregistered and leaves the state unchanged; it reaches the registration phase exactly when every replay send succeeded, with the whole history delivered in order; otherwise it is closed |
| Connection.Handler.Register | server/src/main.rs:203-207 | only a handler whose replay succeeded registers; its fresh id is inserted with its sink and the map grows by one |
| Connection.Handler.Disconnect | server/src/main.rs:219-227 | the handler's own id is removed (a no-op if a broadcast already removed it); every other client keeps its sink |
| Supervisor.Relayed | server/src/main.rs:139-160 | a standard-output line is broadcast unchanged; a standard-error line is broadcast as the marker "错误: " followed by the line |
| Supervisor.Messages | server/src/main.rs:139-160 | a run of output lines gives one message per line |
| Supervisor.MessagesAt | server/src/main.rs:139-160 | the i-th message is the relayed i-th output line |
| Supervisor.Logged | server/src/main.rs:142-159 | the history grows by at most one message per event of a schedule, the relayed lines only |
| Supervisor.ScheduleOfOutput | server/src/main.rs:142-159 | a schedule in which no viewer joins or leaves logs the relayed lines and leaves the client map as the run of their broadcasts |
| Supervisor.JoinedReceivesLater | server/src/main.rs:142-159 | a viewer that joins mid-generation, is not removed by its handler and whose later sends all succeed is still registered at the end and received exactly the lines relayed after its join, in order |
| Supervisor.RelayLine | server/src/main.rs:142-159 | one iteration of a reader loop broadcasts the relayed line |
| Supervisor.Perform | server/src/main.rs:142-159 | one lock scope of the schedule: a relayed line is broadcast and logged; a handler's insert (main.rs:205) or remove (main.rs:221) changes only the client map |
| Supervisor.PumpOutput | server/src/main.rs:137-167 | while the child runs, interleaved with viewers joining and leaving, the history log grows by the relayed lines in order and the client map is the schedule's result |
| Supervisor.RunGeneration | server/src/main.rs:125-177 | one restart cycle: the schedule of output, joins and leaves is applied, then the history becomes exactly the reset line, and the clients still registered are the schedule's survivors minus those whose reset send failed |

## Left out

- Command-line parsing (`Args`), binding the listener and the accept loop (main.rs:16-26, 112-121): library plumbing.
- Spawning `sh -c`, `BufReader::lines`, `child.kill` and the 10-second sleep (main.rs:126-135, 170-173): operating-system and timer I/O. The supervisor model takes the decoded lines as input and keeps only the order "output, end of a stream, kill, backoff, clear_history".
- The reader task that has not ended is not cancelled when the other stream ends. Its remaining lines are part of the given interleaving if they arrive before `clear_history`. Any later ones belong to the next generation's input.
- Concurrency (`tokio::spawn`, `tokio::select!`, `Arc<Mutex<_>>`): each locked block is one atomic sequential method. The interleaving of the reader loops with the handlers' inserts and removes is an input schedule (`Supervisor.Event`); a replay (which only reads the state) is not an event of it. Between the `Handler` steps, any other operation may be called.
- Delivery exactly once across the join boundary: the code does not guarantee it (see above), so it is not stated.
- The WebSocket handshake, `ws_stream.split`, and the inbound receive loop (main.rs:184-187, 210-216). Inbound payloads are ignored, read errors are skipped, and the loop ends on a close or at end of stream. `Disconnect` is the state change that follows.
- `Uuid::new_v4` is represented by the precondition that the id is not yet in the map when the handler registers.
- Panicking `expect` calls (peer address, handshake, spawn, pipes). A panic in a spawned task stops only that task, so a spawn failure stops output without stopping the server. None of this is modelled.
- Logging (`println!`): side effects only.
