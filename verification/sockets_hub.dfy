/** The operations of sockets.go composed into one hub, each call taken as
    one atomic step: a connection attempt, one iteration of a connection's
    read loop, or one iteration of the dispatch loop. The client channel is
    the queue of events not yet taken; the error channel is the sequence of
    errors sent on it. */
module SocketsHub {
  import opened Transport
  import opened Registry
  import opened Sockets

  /** The registry, the connections a read loop has been started on, the
      events waiting on the client channel, and the errors sent so far. */
  datatype Hub = Hub(clients: Clients, listening: set<Conn>, pending: seq<Payload>, errors: seq<Error>)

  datatype Input =
    | Connect(upgrade: Upgrade)
    | Receive(conn: Conn, outcome: Read<Inbound>)
    | Take(failing: set<Conn>)

  /** One atomic step. Read loops never stop and never touch the registry;
      only a successful upgrade adds a client, and it adds only its own
      connection. */
  ghost function Step(h: Hub, input: Input): (h': Hub)
    ensures h.listening <= h'.listening
    ensures input.Receive? ==> h'.clients == h.clients
    ensures input.Connect? && input.upgrade.Upgraded? ==>
      h'.clients.Keys == h.clients.Keys + {Handle(input.upgrade.id)}
    ensures !(input.Connect? && input.upgrade.Upgraded?) ==> h'.clients.Keys <= h.clients.Keys
    ensures |h.errors| <= |h'.errors| && h'.errors[..|h.errors|] == h.errors
  {
    match input
    case Connect(upgrade) =>
      var r := SocketEndPoint(h.clients, upgrade);
      var started := if r.listener.Some? then {r.listener.value} else {};
      Hub(r.clients, h.listening + started, h.pending, h.errors + r.reported)
    case Receive(conn, outcome) =>
      if conn !in h.listening then h
      else
        var out := ListenForWS(conn, [outcome]);
        Hub(h.clients, h.listening, h.pending + Forwarded(out), h.errors + Reported(out))
    case Take(failing) =>
      if h.pending == [] then h
      else
        var (handled, next) := Process(h.clients, Arrival(h.pending[0], failing));
        var reported := if handled.action.ReportError? then [handled.action.error] else [];
        Hub(next, h.listening, h.pending[1..], h.errors + reported)
  }

  /** The hub after the steps of `inputs`, in order. */
  ghost function RunHub(h: Hub, inputs: seq<Input>): Hub
    decreases |inputs|
  {
    if inputs == [] then h else RunHub(Step(h, inputs[0]), inputs[1..])
  }

  /** The nil connection is never registered or listened to, every
      registered client has a running read loop, and every waiting event
      comes from one. */
  ghost predicate Valid(h: Hub)
  {
    && Nil !in h.listening
    && h.clients.Keys <= h.listening
    && forall i :: 0 <= i < |h.pending| ==> h.pending[i].conn in h.listening
  }

  /** One iteration of a read loop sends the read on the client channel or
      its error on the error channel. */
  lemma ListenOnce(conn: Conn, outcome: Read<Inbound>)
    ensures Forwarded(ListenForWS(conn, [outcome])) == if outcome.Got? then [Tag(conn, outcome.value)] else []
    ensures Reported(ListenForWS(conn, [outcome])) == if outcome.ReadError? then [ReadFailed(outcome.reason)] else []
  {
  }

  /** Every step keeps the hub valid. */
  lemma StepValid(h: Hub, input: Input)
    requires Valid(h)
    ensures Valid(Step(h, input))
  {
    var h' := Step(h, input);
    match input
    case Connect(_) =>
    case Receive(conn, outcome) =>
      ListenOnce(conn, outcome);
    case Take(_) =>
      if h.pending != [] {
        assert h'.pending == h.pending[1..];
        assert forall i :: 0 <= i < |h'.pending| ==> h'.pending[i] == h.pending[i + 1];
      }
  }

  /** So does every sequence of steps. */
  lemma {:induction false} RunHubValid(h: Hub, inputs: seq<Input>)
    requires Valid(h)
    ensures Valid(RunHub(h, inputs))
    decreases |inputs|
  {
    if inputs != [] {
      StepValid(h, inputs[0]);
      RunHubValid(Step(h, inputs[0]), inputs[1..]);
    }
  }

  /** Because a failed upgrade registers nothing, a valid hub never
      registers the nil connection, so taking an event never panics and the
      dispatch loop keeps running. */
  lemma TakeNeverPanics(h: Hub, failing: set<Conn>)
    requires Valid(h) && h.pending != []
    ensures !Process(h.clients, Arrival(h.pending[0], failing)).0.panicked
  {
  }

  /** A read that fails is reported once and leaves the registry, the read
      loops and the waiting events as they were. */
  lemma ReadErrorKeepsClient(h: Hub, conn: Conn, reason: string)
    requires conn in h.listening
    ensures Step(h, Receive(conn, ReadError(reason)))
         == h.(errors := h.errors + [ReadFailed(reason)])
  {
    ListenOnce(conn, ReadError(reason));
  }

  /** An event of an unsupported message type is taken, reported once,
      and broadcast to nobody. */
  lemma InvalidTypeReported(h: Hub, failing: set<Conn>)
    requires h.pending != []
    requires h.pending[0].messageType != TextMessage && h.pending[0].messageType != JSONMessage
    ensures Step(h, Take(failing))
         == h.(pending := h.pending[1..], errors := h.errors + [InvalidMessageType(h.pending[0].messageType)])
  {
  }

  function Connects(ids: seq<nat>): (inputs: seq<Input>)
    ensures |inputs| == |ids|
  {
    seq(|ids|, i requires 0 <= i < |ids| => Connect(Upgraded(ids[i])))
  }

  function Handles(ids: seq<nat>): set<Conn>
  {
    if ids == [] then {} else {Handle(ids[0])} + Handles(ids[1..])
  }

  /** A successful connection with an unregistered handle adds one client. */
  lemma ConnectAddsOne(h: Hub, id: nat)
    requires Handle(id) !in h.clients
    ensures Step(h, Connect(Upgraded(id))).clients.Keys == h.clients.Keys + {Handle(id)}
    ensures |Step(h, Connect(Upgraded(id))).clients| == |h.clients| + 1
  {
  }

  /** Distinct handles, none of them registered. */
  ghost predicate Fresh(h: Hub, ids: seq<nat>)
  {
    && (forall i, j :: 0 <= i < j < |ids| ==> ids[i] != ids[j])
    && (forall i :: 0 <= i < |ids| ==> Handle(ids[i]) !in h.clients)
  }

  /** Running a batch of connections is running its first, then the rest. */
  lemma ConnectsCons(h: Hub, ids: seq<nat>)
    requires ids != []
    ensures RunHub(h, Connects(ids)) == RunHub(Step(h, Connect(Upgraded(ids[0]))), Connects(ids[1..]))
  {
    assert Connects(ids)[0] == Connect(Upgraded(ids[0]));
    assert Connects(ids)[1..] == Connects(ids[1..]);
  }

  /** After the first connection the remaining handles are still fresh. */
  lemma FreshTail(h: Hub, ids: seq<nat>)
    requires ids != [] && Fresh(h, ids)
    ensures Fresh(Step(h, Connect(Upgraded(ids[0]))), ids[1..])
  {
  }

  /** Successful connections with distinct, unregistered handles register
      exactly those handles. */
  lemma {:induction false} ConnectsRegisterEach(h: Hub, ids: seq<nat>)
    requires Fresh(h, ids)
    ensures RunHub(h, Connects(ids)).clients.Keys == h.clients.Keys + Handles(ids)
    decreases |ids|
  {
    if ids != [] {
      var h' := Step(h, Connect(Upgraded(ids[0])));
      ConnectsCons(h, ids);
      ConnectAddsOne(h, ids[0]);
      FreshTail(h, ids);
      ConnectsRegisterEach(h', ids[1..]);
    }
  }

  /** Each of N successful connections with distinct, unregistered handles
      adds one client: the registry grows by exactly N. */
  lemma {:induction false} ConnectsCount(h: Hub, ids: seq<nat>)
    requires Fresh(h, ids)
    ensures |RunHub(h, Connects(ids)).clients| == |h.clients| + |ids|
    decreases |ids|
  {
    if ids != [] {
      var h' := Step(h, Connect(Upgraded(ids[0])));
      ConnectsCons(h, ids);
      ConnectAddsOne(h, ids[0]);
      FreshTail(h, ids);
      ConnectsCount(h', ids[1..]);
    }
  }
}
