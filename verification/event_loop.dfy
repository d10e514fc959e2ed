/** The shape both dispatch loops share: events are taken one at a time,
    in arrival order, and each is handled to completion against the
    registry the previous one left before the next is taken. A handling
    that panics ends the loop: nothing recovers it. */
module EventLoop {
  import opened Transport
  import opened Registry

  /** What a loop leaves: one handling record per event taken, in order,
      and the final registry. */
  datatype Run<H> = Run(trace: seq<H>, clients: Clients)

  /** Whether a run ended on a record that stops the loop. */
  predicate Halted<H>(halts: H -> bool, r: Run<H>)
  {
    r.trace != [] && halts(r.trace[|r.trace| - 1])
  }

  /** Handles `events` one after the other with `handle`, threading the
      registry through, until a handling `halts`. The loop handles every
      event unless it halts, and it halts at the first record that halts. */
  function Drain<A, H>(handle: (Clients, A) -> (H, Clients), halts: H -> bool, clients: Clients, events: seq<A>): (r: Run<H>)
    ensures |r.trace| <= |events|
    ensures forall i :: 0 <= i < |r.trace| - 1 ==> !halts(r.trace[i])
    ensures |r.trace| < |events| ==> Halted(halts, r)
    decreases |events|
  {
    if events == [] then Run([], clients)
    else
      var (first, next) := handle(clients, events[0]);
      if halts(first) then Run([first], next)
      else
        var rest := Drain(handle, halts, next, events[1..]);
        Run([first] + rest.trace, rest.clients)
  }

  /** Draining two batches is draining the first and, unless it halted,
      then the second from the registry the first left. */
  lemma {:induction false} DrainAppend<A, H>(handle: (Clients, A) -> (H, Clients), halts: H -> bool, clients: Clients, a: seq<A>, b: seq<A>)
    ensures Drain(handle, halts, clients, a + b)
         == var first := Drain(handle, halts, clients, a);
            if Halted(halts, first) then first
            else
              var second := Drain(handle, halts, first.clients, b);
              Run(first.trace + second.trace, second.clients)
    decreases |a|
  {
    if a == [] {
      assert a + b == b;
    } else {
      assert (a + b)[0] == a[0];
      assert (a + b)[1..] == a[1..] + b;
      var (h, next) := handle(clients, a[0]);
      if !halts(h) {
        var rest := Drain(handle, halts, next, a[1..]);
        assert Drain(handle, halts, clients, a) == Run([h] + rest.trace, rest.clients);
        assert Halted(halts, Drain(handle, halts, clients, a)) == Halted(halts, rest);
        DrainAppend(handle, halts, next, a[1..], b);
        if !Halted(halts, rest) {
          var second := Drain(handle, halts, rest.clients, b);
          assert [h] + (rest.trace + second.trace) == ([h] + rest.trace) + second.trace;
        }
      }
    }
  }

  /** Every event the loop takes is handled against exactly the registry
      the events before it left: nothing is reordered, and each event is
      finished before the next is taken. */
  lemma DrainSequential<A, H>(handle: (Clients, A) -> (H, Clients), halts: H -> bool, clients: Clients, events: seq<A>, i: nat)
    requires i < |Drain(handle, halts, clients, events).trace|
    ensures Drain(handle, halts, clients, events).trace[i]
         == handle(Drain(handle, halts, clients, events[..i]).clients, events[i]).0
  {
    assert events == events[..i] + events[i..];
    DrainAppend(handle, halts, clients, events[..i], events[i..]);
    var first := Drain(handle, halts, clients, events[..i]);
    assert !Halted(halts, first);
    assert events[i..][0] == events[i];
  }

  /** A property of the registry that every handling keeps, and under which
      no handling halts, keeps the loop running over every event. */
  lemma {:induction false} DrainKeeps<A, H>(handle: (Clients, A) -> (H, Clients), halts: H -> bool, ok: Clients -> bool, clients: Clients, events: seq<A>)
    requires forall c, e :: ok(c) ==> !halts(handle(c, e).0) && ok(handle(c, e).1)
    requires ok(clients)
    ensures var r := Drain(handle, halts, clients, events);
      && |r.trace| == |events|
      && (forall i :: 0 <= i < |r.trace| ==> !halts(r.trace[i]))
      && ok(r.clients)
    decreases |events|
  {
    if events != [] {
      var (first, next) := handle(clients, events[0]);
      DrainKeeps(handle, halts, ok, next, events[1..]);
      var rest := Drain(handle, halts, next, events[1..]);
      assert Drain(handle, halts, clients, events).trace == [first] + rest.trace;
    }
  }

  /** The clients the events of `events` remove. */
  function Removed<A>(removes: A -> set<Conn>, events: seq<A>): set<Conn>
    decreases |events|
  {
    if events == [] then {} else removes(events[0]) + Removed(removes, events[1..])
  }

  /** When each handling that does not halt only prunes the registry, a
      loop that does not halt prunes exactly the clients some event
      removes: no client is added, and survivors keep their annotation. */
  lemma {:induction false} DrainPrunes<A, H>(handle: (Clients, A) -> (H, Clients), halts: H -> bool, removes: A -> set<Conn>, clients: Clients, events: seq<A>)
    requires forall c, e :: !halts(handle(c, e).0) ==> handle(c, e).1 == Prune(c, removes(e))
    ensures var r := Drain(handle, halts, clients, events);
      !Halted(halts, r) ==> r.clients == Prune(clients, Removed(removes, events))
    decreases |events|
  {
    if events == [] {
      assert Prune(clients, {}) == clients;
    } else {
      var (first, next) := handle(clients, events[0]);
      if !halts(first) {
        var rest := Drain(handle, halts, next, events[1..]);
        assert Halted(halts, Drain(handle, halts, clients, events)) == Halted(halts, rest);
        DrainPrunes(handle, halts, removes, next, events[1..]);
        PruneTwice(clients, removes(events[0]), Removed(removes, events[1..]));
      }
    }
  }
}
