/** The rule `run_command` (server/src/main.rs) applies to the watched command's output, and
    one generation of its restart loop.

    Each of the two reader tasks locks the state for every line it broadcasts, and every
    connection handler locks it to insert or remove its sink, so these reach the state one at
    a time in some interleaving; `PumpOutput` takes that interleaving, a schedule of events,
    as its input.
 */
module Supervisor {
  import opened History
  import opened Registry

  datatype Stream = Stdout | Stderr

  /** A line read from one of the child's streams. */
  datatype OutputLine = OutputLine(stream: Stream, text: string)

  /** The marker put in front of every standard-error line ("error: "). */
  const ErrorMarker: string := "错误: "

  /** The message broadcast for a line: standard output unchanged, standard error behind
      the marker. */
  function Relayed(stream: Stream, text: string): (message: string)
    ensures stream == Stdout ==> message == text
    ensures stream == Stderr ==>
      |message| == |ErrorMarker| + |text| && message[..|ErrorMarker|] == ErrorMarker && message[|ErrorMarker|..] == text
  {
    match stream
    case Stdout => text
    case Stderr => ErrorMarker + text
  }

  /** The messages broadcast for a run of output lines, in the same order. */
  function Messages(output: seq<OutputLine>): (messages: seq<string>)
    ensures |messages| == |output|
  {
    if output == [] then []
    else
      var n := |output| - 1;
      Messages(output[..n]) + [Relayed(output[n].stream, output[n].text)]
  }

  /** The `i`-th message is the relayed `i`-th line. */
  lemma {:induction false} MessagesAt(output: seq<OutputLine>, i: nat)
    requires i < |output|
    ensures Messages(output)[i] == Relayed(output[i].stream, output[i].text)
  {
    var n := |output| - 1;
    if i < n {
      MessagesAt(output[..n], i);
    }
  }

  /** What can happen to the shared state while a generation runs, one lock scope each: a
      reader task relays a line, or a connection handler inserts or removes its sink. */
  datatype Event =
    | Output(line: OutputLine)        // a reader loop's `broadcast` (main.rs:144, 155-159)
    | Join(id: ClientId, sink: Sink)  // a handler's `clients.insert` (main.rs:205)
    | Leave(id: ClientId)             // a handler's `clients.remove` (main.rs:221)

  /** The messages the relayed lines of a schedule add to the history, in order. */
  function Logged(events: seq<Event>): (messages: seq<string>)
    ensures |messages| <= |events|
  {
    if events == [] then []
    else
      var n := |events| - 1;
      Logged(events[..n]) + (if events[n].Output? then [Relayed(events[n].line.stream, events[n].line.text)] else [])
  }

  /** The client map after one event; `failing` matters only for a relayed line. */
  function Apply(clients: map<ClientId, Sink>, event: Event, failing: set<ClientId>): map<ClientId, Sink>
  {
    match event
    case Output(line) => Fanout(clients, Relayed(line.stream, line.text), failing)
    case Join(id, sink) => clients[id := sink]
    case Leave(id) => clients - {id}
  }

  /** The client map after a schedule, the `k`-th event failing for `failings[k]`. */
  function Schedule(clients: map<ClientId, Sink>, events: seq<Event>, failings: seq<set<ClientId>>)
    : map<ClientId, Sink>
    requires |failings| == |events|
  {
    if events == [] then clients
    else
      var n := |events| - 1;
      Apply(Schedule(clients, events[..n], failings[..n]), events[n], failings[n])
  }

  /** A schedule of relayed lines alone is the run of their broadcasts. */
  lemma {:induction false} ScheduleOfOutput(clients: map<ClientId, Sink>, output: seq<OutputLine>,
                                            events: seq<Event>, failings: seq<set<ClientId>>)
    requires |events| == |output| == |failings|
    requires forall k :: 0 <= k < |events| ==> events[k] == Output(output[k])
    ensures Logged(events) == Messages(output)
    ensures Schedule(clients, events, failings) == FanoutAll(clients, Messages(output), failings)
  {
    if events != [] {
      var n := |events| - 1;
      ScheduleOfOutput(clients, output[..n], events[..n], failings[..n]);
    }
  }

  /** A viewer that joins during a generation, is not removed by its own handler and whose
      sends never fail afterwards is still registered at the end, and it received exactly the
      lines relayed after its join, in order. */
  lemma {:induction false} JoinedReceivesLater(clients: map<ClientId, Sink>, events: seq<Event>,
                                               failings: seq<set<ClientId>>, j: nat)
    requires |failings| == |events| && j < |events| && events[j].Join?
    requires forall k :: j < k < |events| ==> !(events[k].Join? && events[k].id == events[j].id)
    requires forall k :: j < k < |events| ==> !(events[k].Leave? && events[k].id == events[j].id)
    requires forall k :: j < k < |events| && events[k].Output? ==> events[j].id !in failings[k]
    ensures events[j].id in Schedule(clients, events, failings)
    ensures Schedule(clients, events, failings)[events[j].id].received
         == events[j].sink.received + Logged(events[j + 1..])
  {
    var n := |events| - 1;
    var id := events[j].id;
    if n == j {
      assert events[j + 1..] == [];
    } else {
      JoinedReceivesLater(clients, events[..n], failings[..n], j);
      assert events[j + 1..][..n - j - 1] == events[..n][j + 1..];
    }
  }

  /** The body of a reader loop: lock the state and broadcast the relayed line. */
  method RelayLine(state: ServerState, line: OutputLine, failing: set<ClientId>)
    requires state.Valid()
    modifies state, state.history
    ensures state.Valid()
    ensures state.history.added == old(state.history.added) + [Relayed(line.stream, line.text)]
    ensures state.clients == Fanout(old(state.clients), Relayed(line.stream, line.text), failing)
  {
    state.Broadcast(Relayed(line.stream, line.text), failing);
  }

  /** One lock scope of the schedule. */
  method Perform(state: ServerState, event: Event, failing: set<ClientId>)
    requires state.Valid()
    modifies state, state.history
    ensures state.Valid()
    ensures state.history.added == old(state.history.added)
      + (if event.Output? then [Relayed(event.line.stream, event.line.text)] else [])
    ensures state.clients == Apply(old(state.clients), event, failing)
  {
    match event
    case Output(line) => RelayLine(state, line, failing);
    case Join(id, sink) => state.Register(id, sink);
    case Leave(id) => state.Unregister(id);
  }

  /** The two reader loops while the child runs, interleaved with the connection handlers'
      inserts and removes: the lock scopes run in the order of `events`; the `k`-th event,
      when it is a relayed line, fails for the clients in `failings[k]`. */
  method PumpOutput(state: ServerState, events: seq<Event>, failings: seq<set<ClientId>>)
    requires state.Valid() && |failings| == |events|
    modifies state, state.history
    ensures state.Valid()
    ensures state.history.added == old(state.history.added) + Logged(events)
    ensures state.clients == Schedule(old(state.clients), events, failings)
  {
    for i := 0 to |events|
      invariant state.Valid()
      invariant state.history.added == old(state.history.added) + Logged(events[..i])
      invariant state.clients == Schedule(old(state.clients), events[..i], failings[..i])
    {
      assert events[..i + 1][..i] == events[..i];
      assert failings[..i + 1][..i] == failings[..i];
      Perform(state, events[i], failings[i]);
    }
    assert events[..|events|] == events && failings[..|events|] == failings;
  }

  /** One pass of the restart loop: the child's output is broadcast, interleaved with viewers
      joining and leaving, until one stream ends; then the child is killed and the loop sleeps
      for the backoff (handlers that run meanwhile are the tail of `events`), and the history
      is replaced by the reset line, which every surviving viewer receives last. */
  method RunGeneration(state: ServerState, events: seq<Event>, failings: seq<set<ClientId>>,
                       resetFailing: set<ClientId>)
    requires state.Valid() && |failings| == |events|
    modifies state, state.history
    ensures state.Valid()
    ensures state.history.lines == [Reset]
    ensures state.clients == Fanout(Schedule(old(state.clients), events, failings), Reset, resetFailing)
  {
    PumpOutput(state, events, failings);
    // `child.kill()` and the ten-second sleep touch no shared state
    state.ClearHistory(resetFailing);
  }
}
