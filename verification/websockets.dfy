/** The hub of websockets.go: registration without an early return on a
    failed upgrade, a read loop that drops read errors silently, a relay
    that answers every event, and a JSON broadcast that prunes clients
    whose write fails. Channels are modelled as the sequences of values
    sent on them. */
module WebSockets {
  import opened Transport
  import opened Registry
  import opened EventLoop

  /** An inbound message tagged with the connection it was read from. */
  datatype WsPayload = WsPayload(message: string, conn: Conn)

  /** The response sent back to clients. */
  datatype WsJsonResponse = WsJsonResponse(message: string, currentConn: Conn)

  /** The members of the JSON object a response encodes to: only
      `message`; the connection is never serialised. */
  function Wire(r: WsJsonResponse): map<string, string>
  {
    map["message" := r.message]
  }

  // ---------------------------------------------------------------------
  // Registration

  /** The registry after a connection attempt, and the connection a read
      loop was started on. */
  datatype Connected = Connected(clients: Clients, listener: Conn)

  /** Whatever the upgrade returned is registered with the empty annotation
      and listened to: an upgrade error is only logged, so a failed upgrade
      registers the nil connection. */
  function SocketEndPoint(clients: Clients, upgrade: Upgrade): (r: Connected)
    ensures r.clients.Keys == clients.Keys + {r.listener}
    ensures r.clients[r.listener] == Unannotated
    ensures forall c :: c in clients && c != r.listener ==> r.clients[c] == clients[c]
    ensures upgrade.Upgraded? ==> r.listener == Handle(upgrade.id)
    ensures upgrade.UpgradeError? ==> r.listener == Nil && Nil in r.clients
  {
    var conn := upgrade.Returned();
    Connected(Register(clients, conn), conn)
  }

  // ---------------------------------------------------------------------
  // Read loop

  /** The read loop over a sequence of read outcomes: the successful reads
      are sent on, in order, each tagged with `conn`; failed reads are
      dropped without a trace and the loop goes on. On the nil connection
      the first read panics and the deferred recover ends the loop before
      it sends anything. */
  function ListenForWS(conn: Conn, outcomes: seq<Read<string>>): (out: seq<WsPayload>)
    ensures conn == Nil ==> out == []
    ensures conn != Nil ==> |out| == |Successes(outcomes)|
    ensures conn != Nil ==> forall i :: 0 <= i < |out| ==> out[i] == WsPayload(Successes(outcomes)[i], conn)
  {
    if conn == Nil || outcomes == [] then []
    else if outcomes[0].Got? then [WsPayload(outcomes[0].value, conn)] + ListenForWS(conn, outcomes[1..])
    else ListenForWS(conn, outcomes[1..])
  }

  /** The loop treats two runs of reads independently: nothing is carried
      from one to the next. */
  lemma ListenForWSAppend(conn: Conn, a: seq<Read<string>>, b: seq<Read<string>>)
    ensures ListenForWS(conn, a + b) == ListenForWS(conn, a) + ListenForWS(conn, b)
  {
    SuccessesAppend(a, b);
  }

  /** A read error leaves no trace at all: neither a send nor an end of the
      loop. */
  lemma ListenForWSIgnoresError(conn: Conn, before: seq<Read<string>>, reason: string, after: seq<Read<string>>)
    ensures ListenForWS(conn, before + [ReadError(reason)] + after)
         == ListenForWS(conn, before) + ListenForWS(conn, after)
  {
    var err: seq<Read<string>> := [ReadError(reason)];
    assert ListenForWS(conn, err) == [] by {
      assert err[1..] == [];
    }
    ListenForWSAppend(conn, before, err);
    ListenForWSAppend(conn, before + err, after);
    assert ListenForWS(conn, before + err) == ListenForWS(conn, before);
  }

  // ---------------------------------------------------------------------
  // Relay

  /** Every event is answered with a response carrying its message; there
      is no switch and no error path. */
  function Relay(e: WsPayload): (r: WsJsonResponse)
    ensures Wire(r) == map["message" := e.message]
    ensures r.currentConn == Nil
  {
    WsJsonResponse(e.message, Nil)
  }

  /** An event as the relay receives it, with the set of registered clients
      whose write of the response fails. */
  datatype Arrival = Arrival(event: WsPayload, failing: set<Conn>)

  /** The handling of one event: the response, the I/O log of its
      broadcast, the clients it visited, and whether it panicked. */
  datatype Relayed = Relayed(response: WsJsonResponse, log: seq<IoOp<WsJsonResponse>>, visited: set<Conn>, panicked: bool)

  /** A panic in a broadcast ends the relay: it has no recover. */
  predicate Crashed(h: Relayed)
  {
    h.panicked
  }

  function FailingOf(arrival: Arrival): set<Conn>
  {
    arrival.failing
  }

  /** Relays one event: every registered client is written the response
      once and exactly those whose write fails are removed, unless the nil
      connection is registered: its write panics, after the clients visited
      before it were written and the failing ones among them removed. */
  ghost function Process(clients: Clients, arrival: Arrival): (r: (Relayed, Clients))
    ensures r.0.response == Relay(arrival.event)
    ensures r.0.panicked <==> Nil in clients
    ensures r.0.visited <= clients.Keys && Nil !in r.0.visited
    ensures !r.0.panicked ==> r.0.visited == clients.Keys
    ensures r.1 == Prune(clients, r.0.visited * arrival.failing)
    ensures BroadcastLog(r.0.log, r.0.response, r.0.visited, r.0.visited * arrival.failing)
    ensures !r.0.panicked ==>
      && BroadcastLog(r.0.log, r.0.response, clients.Keys, clients.Keys * arrival.failing)
      && r.1 == Prune(clients, arrival.failing)
    ensures r.0.panicked ==> Nil in r.1 && r.1.Keys <= clients.Keys && clients.Keys - r.1.Keys <= arrival.failing
  {
    var response := Relay(arrival.event);
    var s := Sweep(clients, response, arrival.failing);
    (Relayed(response, s.log, s.visited, s.panicked), s.after)
  }

  /** The relay loop over a sequence of events. */
  ghost function ListenToWsChannel(clients: Clients, arrivals: seq<Arrival>): Run<Relayed>
  {
    Drain(Process, Crashed, clients, arrivals)
  }

  /** One broadcast per event taken, in arrival order, each carrying the
      event's message and run against the registry the earlier events left:
      it panics exactly when that registry holds the nil connection, and
      otherwise writes each of its clients once, closing and deleting the
      failing ones. A broadcast that panics has done the same for the
      clients it visited before the nil connection. */
  lemma ListenToWsChannelTrace(clients: Clients, arrivals: seq<Arrival>)
    ensures var r := ListenToWsChannel(clients, arrivals);
      && |r.trace| <= |arrivals|
      && forall i :: 0 <= i < |r.trace| ==>
           var before := ListenToWsChannel(clients, arrivals[..i]).clients;
           && Wire(r.trace[i].response) == map["message" := arrivals[i].event.message]
           && (r.trace[i].panicked <==> Nil in before)
           && (!r.trace[i].panicked ==>
                 BroadcastLog(r.trace[i].log, r.trace[i].response, before.Keys, before.Keys * arrivals[i].failing))
           && r.trace[i].visited <= before.Keys && Nil !in r.trace[i].visited
           && BroadcastLog(r.trace[i].log, r.trace[i].response, r.trace[i].visited, r.trace[i].visited * arrivals[i].failing)
  {
    var r := ListenToWsChannel(clients, arrivals);
    forall i | 0 <= i < |r.trace| {
      DrainSequential(Process, Crashed, clients, arrivals, i);
    }
  }

  /** A registry without the nil connection never panics: every event is
      relayed, and afterwards the registry is the initial one minus exactly
      the clients whose write failed; survivors keep their annotation and
      no client is added. */
  lemma ListenToWsChannelPrunes(clients: Clients, arrivals: seq<Arrival>)
    requires Nil !in clients
    ensures var r := ListenToWsChannel(clients, arrivals);
      && |r.trace| == |arrivals|
      && (forall i :: 0 <= i < |r.trace| ==> !r.trace[i].panicked)
      && r.clients == Prune(clients, Removed(FailingOf, arrivals))
  {
    DrainKeeps(Process, Crashed, NilFree, clients, arrivals);
    DrainPrunes(Process, Crashed, FailingOf, clients, arrivals);
  }

  /** A registry holding the nil connection panics on the first event: the
      relay ends there and no later event is relayed. */
  lemma ListenToWsChannelCrashes(clients: Clients, arrivals: seq<Arrival>)
    requires Nil in clients && arrivals != []
    ensures var r := ListenToWsChannel(clients, arrivals);
      && |r.trace| == 1
      && r.trace[0].panicked
      && Nil in r.clients
  {
  }

  /** A failed upgrade registers the nil connection, so the next event the
      relay takes panics and ends it, whatever was registered before. */
  lemma FailedUpgradeCrashesRelay(clients: Clients, reason: string, arrivals: seq<Arrival>)
    requires arrivals != []
    ensures var r := ListenToWsChannel(SocketEndPoint(clients, UpgradeError(reason)).clients, arrivals);
      |r.trace| == 1 && r.trace[0].panicked
  {
    ListenToWsChannelCrashes(SocketEndPoint(clients, UpgradeError(reason)).clients, arrivals);
  }

  /** Registration with an early return after a failed upgrade, as
      sockets.go has it: the failure is only logged and nothing is
      registered. */
  function GuardedEndPoint(clients: Clients, upgrade: Upgrade): (r: Clients)
    ensures upgrade.UpgradeError? ==> r == clients
    ensures upgrade.Upgraded? ==> r == SocketEndPoint(clients, upgrade).clients
    ensures NilFree(clients) ==> NilFree(r)
  {
    if upgrade.UpgradeError? then clients else SocketEndPoint(clients, upgrade).clients
  }

  /** With the early return, no connection attempt, failed or not, can
      make the relay panic: every later event is relayed. */
  lemma GuardedEndPointKeepsRelay(clients: Clients, upgrade: Upgrade, arrivals: seq<Arrival>)
    requires Nil !in clients
    ensures var r := ListenToWsChannel(GuardedEndPoint(clients, upgrade), arrivals);
      && |r.trace| == |arrivals|
      && (forall i :: 0 <= i < |r.trace| ==> !r.trace[i].panicked)
  {
    ListenToWsChannelPrunes(GuardedEndPoint(clients, upgrade), arrivals);
  }

  // ---------------------------------------------------------------------
  // Broadcast

  /** Writes the response to every registered client once, closing and
      removing exactly those whose write fails; the write to a registered
      nil connection panics and ends the broadcast, after the clients
      visited before it were handled the same way. */
  method BroadcastToAll(clients: Clients, response: WsJsonResponse, failing: set<Conn>)
    returns (panicked: bool, visited: set<Conn>, after: Clients, log: seq<IoOp<WsJsonResponse>>)
    ensures panicked <==> Nil in clients
    ensures visited <= clients.Keys && Nil !in visited
    ensures after == Prune(clients, visited * failing)
    ensures BroadcastLog(log, response, visited, visited * failing)
    ensures !panicked ==>
      && after.Keys == clients.Keys - failing
      && (forall c :: c in after ==> after[c] == clients[c])
      && BroadcastLog(log, response, clients.Keys, clients.Keys * failing)
    ensures panicked ==>
      && Nil in after && after.Keys <= clients.Keys && clients.Keys - after.Keys <= failing
      && Write(Nil, response) !in log
  {
    panicked, visited, after, log := BroadcastPruning(clients, response, failing);
    assert multiset(log)[Write(Nil, response)] == 0;
  }
}
