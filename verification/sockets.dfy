/** The hub of sockets.go: registration of upgraded connections, the
    per-connection read loop, the dispatch switch on the message type, and
    the text and JSON broadcasts that prune clients whose write fails.
    Channels are modelled as the sequences of values sent on them. */
module Sockets {
  import opened Transport
  import opened Registry
  import opened EventLoop

  const TextMessage: int := 1
  const JSONMessage: int := 2

  /** A JSON value carried through untouched (a Go `any`), by its encoding. */
  type Json = string

  /** The fields of one decoded inbound message. */
  datatype Inbound = Inbound(messageType: int, message: string, data: Option<Json>)

  /** An inbound message tagged with the connection it was read from. */
  datatype Payload = Payload(messageType: int, message: string, data: Option<Json>, conn: Conn)

  /** The structured response sent back to clients. */
  datatype JSONResponse = JSONResponse(message: string, data: Option<Json>, currentConn: Conn)

  datatype WireValue = Str(text: string) | Raw(json: Json)

  /** The members of the JSON object a response encodes to: `message`
      always, `data` only when it is not nil, the connection never. */
  function Wire(r: JSONResponse): map<string, WireValue>
  {
    var members := map["message" := Str(r.message)];
    if r.data.Some? then members["data" := Raw(r.data.value)] else members
  }

  /** What is sent on the error channel. */
  datatype Error =
    | UpgradeFailed(reason: string)
    | ReadFailed(reason: string)
    | InvalidMessageType(messageType: int)

  /** What a broadcast writes to one client. */
  datatype Frame = TextFrame(text: string) | JSONFrame(response: JSONResponse)

  // ---------------------------------------------------------------------
  // Registration

  /** What a connection attempt leaves behind: the registry, the connection
      a read loop was started on, and the errors reported. */
  datatype Connected = Connected(clients: Clients, listener: Option<Conn>, reported: seq<Error>)

  /** A failed upgrade reports its error and registers nothing; a
      successful one registers exactly the new connection with the empty
      annotation and starts its read loop. */
  function SocketEndPoint(clients: Clients, upgrade: Upgrade): (r: Connected)
    ensures upgrade.UpgradeError? ==>
      r.clients == clients && r.listener == None && r.reported == [UpgradeFailed(upgrade.reason)]
    ensures upgrade.Upgraded? ==>
      && r.clients.Keys == clients.Keys + {Handle(upgrade.id)}
      && r.clients[Handle(upgrade.id)] == Unannotated
      && (forall c :: c in clients && c != Handle(upgrade.id) ==> r.clients[c] == clients[c])
      && r.listener == Some(Handle(upgrade.id))
      && r.reported == []
    ensures Nil in r.clients ==> Nil in clients
  {
    match upgrade
    case UpgradeError(why) => Connected(clients, None, [UpgradeFailed(why)])
    case Upgraded(id) => Connected(Register(clients, Handle(id)), Some(Handle(id)), [])
  }

  // ---------------------------------------------------------------------
  // Read loop

  /** One send of the read loop: a tagged payload on the client channel or
      an error on the error channel. */
  datatype Emit = Forward(payload: Payload) | Report(error: Error)

  function Tag(conn: Conn, m: Inbound): Payload
  {
    Payload(m.messageType, m.message, m.data, conn)
  }

  function TagAll(conn: Conn, ms: seq<Inbound>): (ps: seq<Payload>)
    ensures |ps| == |ms|
  {
    seq(|ms|, i requires 0 <= i < |ms| => Tag(conn, ms[i]))
  }

  /** The read loop over a sequence of read outcomes: each successful read
      is forwarded tagged with `conn`, each failed read is reported, and the
      loop goes on either way. */
  function ListenForWS(conn: Conn, outcomes: seq<Read<Inbound>>): (out: seq<Emit>)
    ensures |out| == |outcomes|
    ensures forall i :: 0 <= i < |outcomes| && outcomes[i].Got? ==>
      out[i] == Forward(Tag(conn, outcomes[i].value))
    ensures forall i :: 0 <= i < |outcomes| && outcomes[i].ReadError? ==>
      out[i] == Report(ReadFailed(outcomes[i].reason))
  {
    if outcomes == [] then []
    else
      var first := match outcomes[0]
        case Got(m) => Forward(Tag(conn, m))
        case ReadError(why) => Report(ReadFailed(why));
      [first] + ListenForWS(conn, outcomes[1..])
  }

  /** The payloads sent on the client channel, in order. */
  function Forwarded(out: seq<Emit>): seq<Payload>
  {
    if out == [] then []
    else (if out[0].Forward? then [out[0].payload] else []) + Forwarded(out[1..])
  }

  /** The errors sent on the error channel, in order. */
  function Reported(out: seq<Emit>): seq<Error>
  {
    if out == [] then []
    else (if out[0].Report? then [out[0].error] else []) + Reported(out[1..])
  }

  function AsReadErrors(reasons: seq<string>): (errs: seq<Error>)
    ensures |errs| == |reasons|
  {
    seq(|reasons|, i requires 0 <= i < |reasons| => ReadFailed(reasons[i]))
  }

  /** The client channel receives exactly the successful reads, in order,
      each tagged with the reading connection; the error channel receives
      exactly the failed reads, in order. */
  lemma {:induction false} ListenForWSChannels(conn: Conn, outcomes: seq<Read<Inbound>>)
    ensures Forwarded(ListenForWS(conn, outcomes)) == TagAll(conn, Successes(outcomes))
    ensures Reported(ListenForWS(conn, outcomes)) == AsReadErrors(Failures(outcomes))
  {
    if outcomes != [] {
      var out := ListenForWS(conn, outcomes);
      ListenForWSChannels(conn, outcomes[1..]);
      assert out[1..] == ListenForWS(conn, outcomes[1..]);
      var ok := if outcomes[0].Got? then [outcomes[0].value] else [];
      var bad := if outcomes[0].ReadError? then [outcomes[0].reason] else [];
      assert TagAll(conn, ok + Successes(outcomes[1..])) == TagAll(conn, ok) + TagAll(conn, Successes(outcomes[1..]));
      assert AsReadErrors(bad + Failures(outcomes[1..])) == AsReadErrors(bad) + AsReadErrors(Failures(outcomes[1..]));
    }
  }

  /** The loop handles two runs of reads independently: nothing is carried
      from one to the next. */
  lemma ListenForWSAppend(conn: Conn, a: seq<Read<Inbound>>, b: seq<Read<Inbound>>)
    ensures ListenForWS(conn, a + b) == ListenForWS(conn, a) + ListenForWS(conn, b)
  {
  }

  /** A read error does not end the loop: one error is reported and the
      reads after it are handled as if the loop had started with them. */
  lemma ListenForWSContinuesAfterError(conn: Conn, before: seq<Read<Inbound>>, reason: string, after: seq<Read<Inbound>>)
    ensures ListenForWS(conn, before + [ReadError(reason)] + after)
         == ListenForWS(conn, before) + [Report(ReadFailed(reason))] + ListenForWS(conn, after)
  {
  }

  // ---------------------------------------------------------------------
  // Dispatch

  /** The action the dispatch loop takes for one event. */
  datatype Action =
    | BroadcastText(text: string)
    | BroadcastJSON(response: JSONResponse)
    | ReportError(error: Error)

  /** The switch on the message type: 1 broadcasts the message as text, 2
      broadcasts a response carrying only the message, anything else is
      reported as an invalid message type. */
  function Dispatch(e: Payload): (a: Action)
    ensures a.BroadcastText? <==> e.messageType == TextMessage
    ensures a.BroadcastJSON? <==> e.messageType == JSONMessage
    ensures a.BroadcastText? ==> a.text == e.message
    ensures a.BroadcastJSON? ==> a.response == JSONResponse(e.message, None, Nil)
    ensures a.ReportError? ==> a.error == InvalidMessageType(e.messageType)
  {
    if e.messageType == TextMessage then BroadcastText(e.message)
    else if e.messageType == JSONMessage then BroadcastJSON(JSONResponse(e.message, None, Nil))
    else ReportError(InvalidMessageType(e.messageType))
  }

  /** A JSON event is answered with an object whose only member is
      `message`, equal to the event's message. */
  lemma DispatchJSONWire(e: Payload)
    requires e.messageType == JSONMessage
    ensures Dispatch(e).BroadcastJSON?
    ensures Wire(Dispatch(e).response) == map["message" := Str(e.message)]
  {
  }

  /** An event as the dispatch loop receives it, with the set of registered
      clients whose write fails should the event be broadcast. */
  datatype Arrival = Arrival(event: Payload, failing: set<Conn>)

  /** The handling of one event: the action, the I/O log of its broadcast,
      the clients it visited, and whether it panicked. */
  datatype Handled = Handled(action: Action, log: seq<IoOp<Frame>>, visited: set<Conn>, panicked: bool)

  /** A panic in a broadcast ends the dispatch loop: it has no recover. */
  predicate Crashed(h: Handled)
  {
    h.panicked
  }

  /** What a broadcast action writes to each client. */
  function FrameOf(a: Action): Frame
    requires !a.ReportError?
  {
    match a
    case BroadcastText(text) => TextFrame(text)
    case BroadcastJSON(response) => JSONFrame(response)
  }

  /** The clients an event can remove: none for an invalid message type,
      the failing ones for a broadcast. */
  function Removes(arrival: Arrival): set<Conn>
  {
    if Dispatch(arrival.event).ReportError? then {} else arrival.failing
  }

  /** Handles one event against the registry. A broadcast writes every
      registered client once and removes exactly those whose write fails,
      unless the nil connection is registered: its write panics. An invalid
      message type writes nothing and keeps the registry. */
  ghost function Process(clients: Clients, arrival: Arrival): (r: (Handled, Clients))
    ensures r.0.action == Dispatch(arrival.event)
    ensures r.0.action.ReportError? ==> r.0.log == [] && r.0.visited == {} && !r.0.panicked && r.1 == clients
    ensures !r.0.action.ReportError? ==> (r.0.panicked <==> Nil in clients)
    ensures !r.0.action.ReportError? ==>
      && r.0.visited <= clients.Keys && Nil !in r.0.visited
      && r.1 == Prune(clients, r.0.visited * arrival.failing)
      && BroadcastLog(r.0.log, FrameOf(r.0.action), r.0.visited, r.0.visited * arrival.failing)
    ensures !r.0.action.ReportError? && !r.0.panicked ==>
      BroadcastLog(r.0.log, FrameOf(r.0.action), clients.Keys, clients.Keys * arrival.failing)
    ensures !r.0.panicked ==> r.1 == Prune(clients, Removes(arrival))
    ensures r.0.panicked ==> Nil in r.1 && r.1.Keys <= clients.Keys && clients.Keys - r.1.Keys <= arrival.failing
  {
    var action := Dispatch(arrival.event);
    if action.ReportError? then
      assert Prune(clients, {}) == clients;
      (Handled(action, [], {}, false), clients)
    else
      var s := Sweep(clients, FrameOf(action), arrival.failing);
      (Handled(action, s.log, s.visited, s.panicked), s.after)
  }

  /** The dispatch loop over a sequence of events. */
  ghost function ListenToWsChannel(clients: Clients, arrivals: seq<Arrival>): Run<Handled>
  {
    Drain(Process, Crashed, clients, arrivals)
  }

  /** One handling per event taken, in arrival order, each following the
      dispatch rule against the registry the earlier events left: the
      action is the switch on the event's type, and a broadcast panics
      exactly when that registry holds the nil connection and otherwise
      writes each of its clients once, closing and deleting the failing
      ones. */
  lemma ListenToWsChannelTrace(clients: Clients, arrivals: seq<Arrival>)
    ensures var r := ListenToWsChannel(clients, arrivals);
      && |r.trace| <= |arrivals|
      && forall i :: 0 <= i < |r.trace| ==>
           var before := ListenToWsChannel(clients, arrivals[..i]).clients;
           && r.trace[i].action == Dispatch(arrivals[i].event)
           && (r.trace[i].panicked <==> !r.trace[i].action.ReportError? && Nil in before)
           && (!r.trace[i].action.ReportError? && !r.trace[i].panicked ==>
                 BroadcastLog(r.trace[i].log, FrameOf(r.trace[i].action), before.Keys, before.Keys * arrivals[i].failing))
           && (!r.trace[i].action.ReportError? ==>
                 && r.trace[i].visited <= before.Keys && Nil !in r.trace[i].visited
                 && BroadcastLog(r.trace[i].log, FrameOf(r.trace[i].action), r.trace[i].visited, r.trace[i].visited * arrivals[i].failing))
  {
    var r := ListenToWsChannel(clients, arrivals);
    forall i | 0 <= i < |r.trace| {
      DrainSequential(Process, Crashed, clients, arrivals, i);
    }
  }

  /** A registry without the nil connection never panics: every event is
      handled, and afterwards the registry is the initial one minus exactly
      the clients whose write failed in some broadcast; survivors keep their
      annotation and no client is added. */
  lemma ListenToWsChannelPrunes(clients: Clients, arrivals: seq<Arrival>)
    requires Nil !in clients
    ensures var r := ListenToWsChannel(clients, arrivals);
      && |r.trace| == |arrivals|
      && (forall i :: 0 <= i < |r.trace| ==> !r.trace[i].panicked)
      && r.clients == Prune(clients, Removed(Removes, arrivals))
  {
    DrainKeeps(Process, Crashed, NilFree, clients, arrivals);
    DrainPrunes(Process, Crashed, Removes, clients, arrivals);
  }

  // ---------------------------------------------------------------------
  // Broadcasts

  /** Writes the response as JSON to every registered client once, closing
      and removing exactly those whose write fails; the write to a
      registered nil connection panics, after the clients visited before it
      were handled the same way. */
  method BroadcastJSONToAll(clients: Clients, response: JSONResponse, failing: set<Conn>)
    returns (panicked: bool, visited: set<Conn>, after: Clients, log: seq<IoOp<Frame>>)
    ensures panicked <==> Nil in clients
    ensures visited <= clients.Keys && Nil !in visited
    ensures after == Prune(clients, visited * failing)
    ensures BroadcastLog(log, JSONFrame(response), visited, visited * failing)
    ensures !panicked ==>
      && after.Keys == clients.Keys - failing
      && (forall c :: c in after ==> after[c] == clients[c])
      && BroadcastLog(log, JSONFrame(response), clients.Keys, clients.Keys * failing)
    ensures panicked ==>
      && Nil in after && after.Keys <= clients.Keys && clients.Keys - after.Keys <= failing
      && Write(Nil, JSONFrame(response)) !in log
  {
    panicked, visited, after, log := BroadcastPruning(clients, JSONFrame(response), failing);
    assert multiset(log)[Write(Nil, JSONFrame(response))] == 0;
  }

  /** Writes the text to every registered client once, closing and removing
      exactly those whose write fails; the write to a registered nil
      connection panics, after the clients visited before it were handled
      the same way. */
  method BroadcastTextToAll(clients: Clients, text: string, failing: set<Conn>)
    returns (panicked: bool, visited: set<Conn>, after: Clients, log: seq<IoOp<Frame>>)
    ensures panicked <==> Nil in clients
    ensures visited <= clients.Keys && Nil !in visited
    ensures after == Prune(clients, visited * failing)
    ensures BroadcastLog(log, TextFrame(text), visited, visited * failing)
    ensures !panicked ==>
      && after.Keys == clients.Keys - failing
      && (forall c :: c in after ==> after[c] == clients[c])
      && BroadcastLog(log, TextFrame(text), clients.Keys, clients.Keys * failing)
    ensures panicked ==>
      && Nil in after && after.Keys <= clients.Keys && clients.Keys - after.Keys <= failing
      && Write(Nil, TextFrame(text)) !in log
  {
    panicked, visited, after, log := BroadcastPruning(clients, TextFrame(text), failing);
    assert multiset(log)[Write(Nil, TextFrame(text))] == 0;
  }
}
