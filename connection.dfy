/** One viewer connection as `handle_connection` (server/src/main.rs) drives it, after the
    WebSocket handshake: replay the history, register, wait for the close, unregister.

    The three steps are separate critical sections of the source: the lock is released after
    the replay and taken again for the insert, so other tasks (a broadcast, another
    connection) may run between any two of these methods.
 */
module Connection {
  import opened History
  import opened Registry

  datatype Phase =
    | Replaying   // handshake done, history not yet sent
    | Replayed    // every history line was sent; about to register
    | Registered  // in the client map, waiting for the close
    | Closed      // finished, with or without having registered

  class Handler {
    /** The id drawn with `Uuid::new_v4`. */
    const id: ClientId
    var phase: Phase
    /** The sending half while the handler still owns it. The source moves it into the map
        on registration, so from `Registered` on the live sink is `state.clients[id]` and this
        field is only the value that was inserted. */
    var sink: Sink

    constructor (id: ClientId, sink: Sink)
      ensures this.id == id && this.sink == sink && phase == Replaying
    {
      this.id := id;
      this.sink := sink;
      phase := Replaying;
    }

    /** First critical section: replay the snapshot. On the first failed send the handler
        returns, so it is closed without ever registering. The server state is only read. */
    method Replay(state: ServerState, failures: set<nat>) returns (ok: bool)
      requires phase == Replaying && state.Valid()
      modifies this
      ensures ok <==> forall k :: 0 <= k < |state.history.lines| ==> k !in failures
      ensures ok ==> phase == Replayed && sink.received == old(sink.received) + state.history.lines
      ensures !ok ==> phase == Closed
    {
      var replayed;
      replayed, ok := state.ReplayHistory(sink, failures);
      sink := replayed;
      phase := if ok then Replayed else Closed;
    }

    /** Second critical section: insert the sink under the handler's id. A fresh UUID is
        not yet in the map, which is what `id !in state.clients` says. */
    method Register(state: ServerState)
      requires phase == Replayed && id !in state.clients && state.Valid()
      modifies this`phase, state
      ensures state.Valid()
      ensures phase == Registered
      ensures state.clients == old(state.clients)[id := sink]
      ensures |state.clients| == |old(state.clients)| + 1
    {
      state.Register(id, sink);
      phase := Registered;
    }

    /** Third critical section, after the receive loop ends: remove this id only. A broadcast
        may already have removed it, in which case nothing changes. */
    method Disconnect(state: ServerState)
      requires phase == Registered && state.Valid()
      modifies this`phase, state
      ensures state.Valid()
      ensures phase == Closed
      ensures state.clients == old(state.clients) - {id}
      ensures forall other :: other in old(state.clients) && other != id ==>
        other in state.clients && state.clients[other] == old(state.clients)[other]
    {
      state.Unregister(id);
      phase := Closed;
    }
  }
}
