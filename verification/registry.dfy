/** The client registry both hubs keep: a map from connection to an unused
    per-client annotation, and the pruning broadcast that walks it. */
module Registry {
  import opened Transport

  /** The annotation every registration stores. */
  const Unannotated: string := ""

  type Clients = map<Conn, string>

  /** The nil connection is not registered. */
  predicate NilFree(clients: Clients)
  {
    Nil !in clients
  }

  /** Adds `conn` with the empty annotation; every other entry is kept. */
  function Register(clients: Clients, conn: Conn): (r: Clients)
    ensures r.Keys == clients.Keys + {conn}
    ensures r[conn] == Unannotated
    ensures forall c :: c in clients && c != conn ==> r[c] == clients[c]
    ensures conn !in clients ==> |r| == |clients| + 1
  {
    clients[conn := Unannotated]
  }

  /** Removes exactly the clients in `failing`; every other client keeps its
      entry and annotation, and no client is added. */
  function Prune(clients: Clients, failing: set<Conn>): (r: Clients)
    ensures r.Keys == clients.Keys - failing
    ensures forall c :: c in r ==> r[c] == clients[c]
  {
    map c | c in clients && c !in failing :: clients[c]
  }

  /** Pruning a freshly registered connection gives back the registry as it
      was: registration changes nothing but its own entry. */
  lemma PruneUndoesRegister(clients: Clients, conn: Conn)
    requires conn !in clients
    ensures Prune(Register(clients, conn), {conn}) == clients
  {
    assert Prune(Register(clients, conn), {conn}).Keys == clients.Keys;
  }

  /** Pruning twice removes the union of both failure sets. */
  lemma PruneTwice(clients: Clients, f: set<Conn>, g: set<Conn>)
    ensures Prune(Prune(clients, f), g) == Prune(clients, f + g)
  {
  }

  /** One observable effect of a broadcast on a client's transport. */
  datatype IoOp<F> = Write(conn: Conn, frame: F) | Close(conn: Conn) | Delete(conn: Conn)

  /** The I/O log of a broadcast of `frame`: every client in `written`, and no
      other, receives exactly one write of `frame`; every client in `removed`,
      and no other, is closed once and deleted once; a close follows directly
      the write that failed, and a delete follows directly the close. */
  ghost predicate BroadcastLog<F>(log: seq<IoOp<F>>, frame: F, written: set<Conn>, removed: set<Conn>)
  {
    && (forall c {:trigger multiset(log)[Write(c, frame)]} :: multiset(log)[Write(c, frame)] == (if c in written then 1 else 0))
    && (forall c {:trigger multiset(log)[Close(c)]} :: multiset(log)[Close(c)] == (if c in removed then 1 else 0))
    && (forall c {:trigger multiset(log)[Delete(c)]} :: multiset(log)[Delete(c)] == (if c in removed then 1 else 0))
    && (forall i :: 0 <= i < |log| && log[i].Write? ==> log[i].frame == frame)
    && (forall i :: 0 <= i < |log| && log[i].Close? ==> 0 < i && log[i - 1] == Write(log[i].conn, frame))
    && (forall i :: 0 <= i < |log| && log[i].Delete? ==> 0 < i && log[i - 1] == Close(log[i].conn))
  }

  /** The log entries of one iteration of the broadcast loop: the write, and
      when it fails the close and the delete. */
  function Visit<F>(c: Conn, frame: F, fails: bool): seq<IoOp<F>>
  {
    [Write(c, frame)] + (if fails then [Close(c), Delete(c)] else [])
  }

  /** Visiting a client not yet visited extends a broadcast log by that
      client. */
  lemma VisitExtendsLog<F>(log: seq<IoOp<F>>, frame: F, written: set<Conn>, removed: set<Conn>, c: Conn, fails: bool)
    requires BroadcastLog(log, frame, written, removed)
    requires c !in written && c !in removed
    ensures BroadcastLog(log + Visit(c, frame, fails), frame, written + {c}, if fails then removed + {c} else removed)
  {
    var log' := log + Visit(c, frame, fails);
    var removed' := if fails then removed + {c} else removed;
    assert multiset(log') == multiset(log) + multiset(Visit(c, frame, fails));
    forall i | 0 <= i < |log'| && log'[i].Close?
      ensures 0 < i && log'[i - 1] == Write(log'[i].conn, frame)
    {
      if i >= |log| {
        assert i == |log| + 1;
      }
    }
    forall i | 0 <= i < |log'| && log'[i].Delete?
      ensures 0 < i && log'[i - 1] == Close(log'[i].conn)
    {
      if i >= |log| {
        assert i == |log| + 2;
      }
    }
  }

  /** The log of visiting the clients of `order` one after the other. */
  function Visits<F>(order: seq<Conn>, frame: F, failing: set<Conn>): seq<IoOp<F>>
  {
    if order == [] then []
    else Visits(order[..|order| - 1], frame, failing) + Visit(order[|order| - 1], frame, order[|order| - 1] in failing)
  }

  ghost predicate Distinct(order: seq<Conn>)
  {
    forall i, j :: 0 <= i < j < |order| ==> order[i] != order[j]
  }

  /** Visiting distinct clients in any order yields a broadcast log over
      exactly those clients, removing exactly the failing ones. */
  lemma {:induction false} VisitsLog<F>(order: seq<Conn>, frame: F, failing: set<Conn>)
    requires Distinct(order)
    ensures BroadcastLog(Visits(order, frame, failing), frame, set c | c in order, (set c | c in order) * failing)
  {
    if order != [] {
      var prefix, last := order[..|order| - 1], order[|order| - 1];
      var seen := set c | c in prefix;
      assert last !in prefix;
      assert order == prefix + [last];
      assert (set c | c in order) == seen + {last};
      assert (seen + {last}) * failing == if last in failing then seen * failing + {last} else seen * failing;
      VisitsLog(prefix, frame, failing);
      VisitExtendsLog(Visits(prefix, frame, failing), frame, seen, seen * failing, last, last in failing);
    }
  }

  /** Visiting one more client prunes it too when its write fails. */
  lemma PruneVisit(clients: Clients, visited: set<Conn>, failing: set<Conn>, c: Conn)
    ensures Prune(clients, (visited + {c}) * failing)
         == if c in failing then Prune(clients, visited * failing) - {c} else Prune(clients, visited * failing)
  {
    assert (visited + {c}) * failing == if c in failing then visited * failing + {c} else visited * failing;
  }

  /** Pruning the registered failing clients is pruning the failing ones. */
  lemma PruneRegistered(clients: Clients, failing: set<Conn>)
    ensures Prune(clients, clients.Keys * failing) == Prune(clients, failing)
  {
    assert Prune(clients, clients.Keys * failing).Keys == Prune(clients, failing).Keys;
  }

  /** Appending a client not yet visited to the visit order. */
  lemma VisitNext<F>(order: seq<Conn>, frame: F, failing: set<Conn>, c: Conn)
    requires Distinct(order) && c !in order
    ensures Distinct(order + [c])
    ensures (set x | x in order + [c]) == (set x | x in order) + {c}
    ensures Visits(order + [c], frame, failing) == Visits(order, frame, failing) + Visit(c, frame, c in failing)
  {
    assert (order + [c])[..|order|] == order;
  }

  /** The clients a broadcast visits in `order` before it reaches the nil
      connection, whose write panics and ends the walk. */
  function BeforeNil(order: seq<Conn>): (p: seq<Conn>)
    ensures p <= order
    ensures Nil !in p
    ensures Nil !in order ==> p == order
    ensures Nil in order ==> |p| < |order| && order[|p|] == Nil
  {
    if order == [] || order[0] == Nil then []
    else [order[0]] + BeforeNil(order[1..])
  }

  /** A prefix of a repetition-free order is repetition-free. */
  lemma PrefixDistinct(order: seq<Conn>, prefix: seq<Conn>)
    requires Distinct(order) && prefix <= order
    ensures Distinct(prefix)
  {
    forall i, j | 0 <= i < j < |prefix| ensures prefix[i] != prefix[j] {
      assert prefix[i] == order[i] && prefix[j] == order[j];
    }
  }

  /** Some order in which the registry's clients can be iterated. */
  ghost function Ordering(s: set<Conn>): (o: seq<Conn>)
    ensures (set c | c in o) == s
    ensures Distinct(o)
    decreases s
  {
    if s == {} then []
    else
      var c :| c in s;
      var rest := Ordering(s - {c});
      assert (set x | x in [c] + rest) == {c} + (set x | x in rest);
      [c] + rest
  }

  /** How one broadcast ends: its I/O log, the clients it visited, whether
      it panicked on the nil connection, and the registry it leaves. */
  datatype Swept<F> = Swept(log: seq<IoOp<F>>, visited: set<Conn>, panicked: bool, after: Clients)

  /** One broadcast of `frame` over the registry in some iteration order.
      It panics exactly when the nil connection is registered, before
      writing to it; until then every visited client gets one write and the
      failing ones are closed and deleted. */
  ghost function Sweep<F>(clients: Clients, frame: F, failing: set<Conn>): (r: Swept<F>)
    ensures r.panicked <==> Nil in clients
    ensures r.visited <= clients.Keys && Nil !in r.visited
    ensures !r.panicked ==> r.visited == clients.Keys && r.after == Prune(clients, failing)
    ensures r.after == Prune(clients, r.visited * failing)
    ensures BroadcastLog(r.log, frame, r.visited, r.visited * failing)
  {
    var all := Ordering(clients.Keys);
    var order := BeforeNil(all);
    PrefixDistinct(all, order);
    VisitsLog(order, frame, failing);
    var visited := set c | c in order;
    PruneRegistered(clients, failing);
    Swept(Visits(order, frame, failing), visited, Nil in clients, Prune(clients, visited * failing))
  }

  /** Writes `frame` to every client registered at the start, in an
      arbitrary order; a client whose write fails (it is in `failing`) is
      closed and deleted on the spot. A write to the nil connection panics:
      the broadcast ends there, keeping what it did so far. */
  method BroadcastPruning<F>(clients: Clients, frame: F, failing: set<Conn>)
    returns (panicked: bool, visited: set<Conn>, after: Clients, log: seq<IoOp<F>>)
    ensures panicked <==> Nil in clients
    ensures visited <= clients.Keys && Nil !in visited
    ensures !panicked ==> visited == clients.Keys && after == Prune(clients, failing)
    ensures after == Prune(clients, visited * failing)
    ensures BroadcastLog(log, frame, visited, visited * failing)
  {
    after := clients;
    log := [];
    panicked := false;
    visited := {};
    var pending := clients.Keys;
    ghost var order: seq<Conn> := [];
    assert after == Prune(clients, visited * failing);
    while pending != {}
      invariant visited + pending == clients.Keys && visited !! pending
      invariant Nil !in visited && !panicked
      invariant (set x | x in order) == visited && Distinct(order)
      invariant after == Prune(clients, visited * failing)
      invariant log == Visits(order, frame, failing)
      decreases pending
    {
      var c :| c in pending;
      if c == Nil {
        panicked := true;
        break;
      }
      VisitNext(order, frame, failing, c);
      PruneVisit(clients, visited, failing, c);
      log := log + Visit(c, frame, c in failing);
      if c in failing {
        after := after - {c};
      }
      order := order + [c];
      visited := visited + {c};
      pending := pending - {c};
    }
    VisitsLog(order, frame, failing);
    PruneRegistered(clients, failing);
  }
}
