/** Vocabulary shared by both hub variants: connection handles and the
    outcomes of the WebSocket library calls the hubs make. Every library call
    is replaced by an outcome the caller supplies. */
module Transport {

  datatype Option<+T> = None | Some(value: T)

  /** A connection wrapper, compared by the identity of the underlying
      handle. `Nil` wraps a nil handle: the value an upgrade returns when it
      fails. */
  datatype Conn = Nil | Handle(id: nat)

  /** Outcome of upgrading an HTTP request to a WebSocket connection. */
  datatype Upgrade = Upgraded(id: nat) | UpgradeError(reason: string)
  {
    /** The connection value the upgrade hands back, nil on failure. */
    function Returned(): (c: Conn)
      ensures c == Nil <==> UpgradeError?
    {
      match this
      case Upgraded(id) => Handle(id)
      case UpgradeError(_) => Nil
    }
  }

  /** Outcome of one blocking read of a decoded JSON message. */
  datatype Read<+P> = Got(value: P) | ReadError(reason: string)

  /** The successful reads, in order. */
  function Successes<P>(outcomes: seq<Read<P>>): seq<P>
  {
    if outcomes == [] then []
    else (if outcomes[0].Got? then [outcomes[0].value] else []) + Successes(outcomes[1..])
  }

  /** The reasons of the failed reads, in order. */
  function Failures<P>(outcomes: seq<Read<P>>): seq<string>
  {
    if outcomes == [] then []
    else (if outcomes[0].ReadError? then [outcomes[0].reason] else []) + Failures(outcomes[1..])
  }

  lemma {:induction false} SuccessesAppend<P>(a: seq<Read<P>>, b: seq<Read<P>>)
    ensures Successes(a + b) == Successes(a) + Successes(b)
  {
    if a == [] {
      assert a + b == b;
    } else {
      var head := if a[0].Got? then [a[0].value] else [];
      assert (a + b)[0] == a[0];
      assert (a + b)[1..] == a[1..] + b;
      calc {
        Successes(a + b);
        head + Successes(a[1..] + b);
        { SuccessesAppend(a[1..], b); }
        head + (Successes(a[1..]) + Successes(b));
        (head + Successes(a[1..])) + Successes(b);
      }
    }
  }
}
