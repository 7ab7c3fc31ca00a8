/** The shared server state (ServerState, server/src/main.rs): the output history and the
    registered clients. Each public method of `ServerState` is one critical section of the
    source's Mutex, run as one atomic sequential step; `SendToAll` and `RemoveClients` are the
    two phases inside the critical section of `Broadcast`, not critical sections of their own.

    A client's sending half is a value `Sink` recording the messages delivered to it. Whether
    a send succeeds is decided by the connection, not by the server, so the outcome is a
    parameter: `failing` holds the clients whose send fails during one broadcast.
 */
module Registry {
  import opened History

  /** Client ids are UUID strings. */
  type ClientId = string

  /** The sending half of a client connection: the text messages delivered so far, in order. */
  datatype Sink = Sink(received: seq<string>)

  /** One send attempt: a message that goes through is appended; a failed send delivers nothing. */
  function Send(sink: Sink, message: string, ok: bool): (s: Sink)
    ensures ok ==> s.received == sink.received + [message]
    ensures !ok ==> s == sink
  {
    if ok then Sink(sink.received + [message]) else sink
  }

  /** The terminal reset line `ESC [2J ESC [H` that `clear_history` broadcasts. */
  const Reset: string := "\U{1b}[2J\U{1b}[H"

  /** The capacity `main` gives the history. */
  const MaxHistoryLines: nat := 1000

  /** The client map after broadcasting `message` when the sends to `failing` fail. */
  function Fanout(clients: map<ClientId, Sink>, message: string, failing: set<ClientId>)
    : (r: map<ClientId, Sink>)
    // exactly the failed clients are dropped, and nobody joins
    ensures forall id :: id in r <==> id in clients && id !in failing
    // every survivor received the message exactly once, as its newest message
    ensures forall id :: id in r ==> r[id].received == clients[id].received + [message]
  {
    map id | id in clients && id !in failing :: Send(clients[id], message, true)
  }

  /** The client map after the broadcasts of `messages`, the `k`-th failing for `failings[k]`. */
  function FanoutAll(clients: map<ClientId, Sink>, messages: seq<string>, failings: seq<set<ClientId>>)
    : (r: map<ClientId, Sink>)
    requires |failings| == |messages|
    // broadcasts only ever remove clients
    ensures r.Keys <= clients.Keys
  {
    if messages == [] then clients
    else
      var n := |messages| - 1;
      Fanout(FanoutAll(clients, messages[..n], failings[..n]), messages[n], failings[n])
  }

  /** Broadcasting one more message extends the run by one `Fanout`. */
  lemma FanoutAllSnoc(clients: map<ClientId, Sink>, messages: seq<string>, failings: seq<set<ClientId>>,
                      message: string, failing: set<ClientId>)
    requires |failings| == |messages|
    ensures FanoutAll(clients, messages + [message], failings + [failing])
         == Fanout(FanoutAll(clients, messages, failings), message, failing)
  {
  }

  /** Over a run of broadcasts a client stays registered exactly when none of its sends
      failed, and then it received every message once, in broadcast order. A client that
      is dropped never comes back. */
  lemma {:induction false} FanoutAllLaw(clients: map<ClientId, Sink>, messages: seq<string>,
                                        failings: seq<set<ClientId>>, id: ClientId)
    requires |failings| == |messages|
    ensures id in FanoutAll(clients, messages, failings)
        <==> id in clients && forall k :: 0 <= k < |failings| ==> id !in failings[k]
    ensures id in FanoutAll(clients, messages, failings)
        ==> FanoutAll(clients, messages, failings)[id].received == clients[id].received + messages
  {
    if messages != [] {
      var n := |messages| - 1;
      FanoutAllLaw(clients, messages[..n], failings[..n], id);
      var before := FanoutAll(clients, messages[..n], failings[..n]);
      assert FanoutAll(clients, messages, failings) == Fanout(before, messages[n], failings[n]);
      if id in clients && forall k :: 0 <= k < |failings| ==> id !in failings[k] {
        assert forall k :: 0 <= k < n ==> failings[..n][k] == failings[k];
        assert messages[..n] + [messages[n]] == messages;
      } else if id in before {
        assert forall k :: 0 <= k < n ==> id !in failings[..n][k];
        assert id in failings[n];
      }
    }
  }

  /** `main` builds the state with `ServerState::new(1000)`, so the history it serves never
      holds more than 1000 lines. */
  lemma MainHistoryBound(h: OutputHistory)
    requires h.Valid() && h.maxLines == MaxHistoryLines
    ensures |h.GetAll()| <= 1000
    ensures |h.lines| <= MaxHistoryLines
  {
  }

  /** Removing a client that was registered under a fresh id restores the map as it was. */
  lemma UnregisterUndoesRegister(clients: map<ClientId, Sink>, id: ClientId, sink: Sink)
    requires id !in clients
    ensures clients[id := sink] - {id} == clients
  {
  }

  /** The replay loop of `handle_connection`: send the snapshot line by line, oldest first,
      and give up at the first send that fails (the `k`-th send fails when `k` is in
      `failures`). */
  method SendSnapshot(snapshot: seq<string>, sink: Sink, failures: set<nat>) returns (replayed: Sink, ok: bool)
    ensures ok <==> forall k :: 0 <= k < |snapshot| ==> k !in failures
    ensures ok ==> replayed.received == sink.received + snapshot
    ensures !ok ==> exists k :: 0 <= k < |snapshot| && k in failures
                      && (forall j :: 0 <= j < k ==> j !in failures)
                      && replayed.received == sink.received + snapshot[..k]
  {
    replayed := sink;
    var i := 0;
    while i < |snapshot|
      invariant 0 <= i <= |snapshot|
      invariant forall j :: 0 <= j < i ==> j !in failures
      invariant replayed.received == sink.received + snapshot[..i]
    {
      var sent := i !in failures;
      assert snapshot[..i + 1] == snapshot[..i] + [snapshot[i]];
      replayed := Send(replayed, snapshot[i], sent);
      if !sent {
        assert i in failures && replayed.received == sink.received + snapshot[..i];
        return replayed, false;
      }
      i := i + 1;
    }
    assert snapshot[..i] == snapshot;
    ok := true;
  }

  class ServerState {
    const history: OutputHistory
    var clients: map<ClientId, Sink>

    ghost predicate Valid()
      reads this, history
    {
      history.Valid()
    }

    /** `ServerState::new`: an empty history of the given capacity, no clients. */
    constructor (maxLines: nat)
      ensures Valid() && fresh(history)
      ensures history.maxLines == maxLines
      ensures history.lines == [] && history.added == []
      ensures clients == map[]
    {
      history := new OutputHistory(maxLines);
      clients := map[];
    }

    /** `broadcast`: record the message in the history, send it to every client, and only
        then remove the clients whose send failed. */
    method Broadcast(message: string, failing: set<ClientId>)
      requires Valid()
      modifies this, history
      ensures Valid()
      ensures history.lines == Added(old(history.lines), history.maxLines, message)
      ensures history.added == old(history.added) + [message]
      ensures clients == Fanout(old(clients), message, failing)
    {
      history.AddLine(message);
      var disconnected := SendToAll(message, failing);
      RemoveClients(disconnected);
    }

    /** The send pass of `broadcast`, a helper of `Broadcast` running inside its critical
        section: every registered client is sent the message once, in
        an unspecified order; the ids whose send failed are collected and the key set of the
        map is left alone. */
    method SendToAll(message: string, failing: set<ClientId>) returns (disconnected: seq<ClientId>)
      modifies this
      ensures clients.Keys == old(clients.Keys)
      ensures forall id :: id in clients ==> clients[id] == Send(old(clients)[id], message, id !in failing)
      ensures forall id :: id in disconnected <==> id in old(clients) && id in failing
    {
      var pending := clients.Keys;
      disconnected := [];
      while pending != {}
        invariant pending <= clients.Keys == old(clients.Keys)
        invariant forall id :: id in clients ==>
          clients[id] == if id in pending then old(clients)[id] else Send(old(clients)[id], message, id !in failing)
        invariant forall id :: id in disconnected <==> id in old(clients) && id !in pending && id in failing
        decreases pending
      {
        var id :| id in pending;
        var ok := id !in failing;
        clients := clients[id := Send(clients[id], message, ok)];
        if !ok {
          disconnected := disconnected + [id];
        }
        pending := pending - {id};
      }
    }

    /** The removal pass of `broadcast`: drop every collected id. Like `SendToAll`, a helper
        of `Broadcast` running inside its critical section. */
    method RemoveClients(disconnected: seq<ClientId>)
      modifies this
      ensures forall id :: id in clients <==> id in old(clients) && id !in disconnected
      ensures forall id :: id in clients ==> clients[id] == old(clients)[id]
    {
      for i := 0 to |disconnected|
        invariant forall id :: id in clients <==> id in old(clients) && id !in disconnected[..i]
        invariant forall id :: id in clients ==> clients[id] == old(clients)[id]
      {
        clients := clients - {disconnected[i]};
        assert disconnected[..i + 1] == disconnected[..i] + [disconnected[i]];
      }
      assert disconnected[..|disconnected|] == disconnected;
    }

    /** `clear_history`: empty the history, then broadcast the terminal reset line. */
    method ClearHistory(failing: set<ClientId>)
      requires Valid()
      modifies this, history
      ensures Valid()
      ensures history.lines == [Reset] && history.added == [Reset]
      ensures clients == Fanout(old(clients), Reset, failing)
      ensures forall id :: id in clients ==>
        |clients[id].received| >= 1 && clients[id].received[|clients[id].received| - 1] == Reset
    {
      history.Clear();
      Broadcast(Reset, failing);
    }

    /** The replay block of `handle_connection`: take a snapshot of the history and send it
        to a new client's sink (the `k`-th send fails when `k` is in `failures`). The state
        is only read. */
    method ReplayHistory(sink: Sink, failures: set<nat>) returns (replayed: Sink, ok: bool)
      requires Valid()
      ensures ok <==> forall k :: 0 <= k < |history.lines| ==> k !in failures
      ensures ok ==> replayed.received == sink.received + history.lines
      ensures !ok ==> exists k :: 0 <= k < |history.lines| && k in failures
                        && (forall j :: 0 <= j < k ==> j !in failures)
                        && replayed.received == sink.received + history.lines[..k]
    {
      var snapshot := history.GetAll();
      replayed, ok := SendSnapshot(snapshot, sink, failures);
    }

    /** The registration block of `handle_connection`: `clients.insert(id, sink)`. */
    method Register(id: ClientId, sink: Sink)
      requires Valid()
      modifies this
      ensures Valid()
      ensures clients == old(clients)[id := sink]
    {
      clients := clients[id := sink];
    }

    /** The removal block of `handle_connection`: `clients.remove(id)`, a no-op when the id
        is already gone. */
    method Unregister(id: ClientId)
      requires Valid()
      modifies this
      ensures Valid()
      ensures clients == old(clients) - {id}
      ensures id !in old(clients) ==> clients == old(clients)
    {
      clients := clients - {id};
    }
  }
}
