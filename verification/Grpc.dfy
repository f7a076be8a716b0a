/**
 The gRPC transport's connection state. A receive may be dropped at any of its
 await points, because the main loop abandons it when a result is ready.
 */
module Grpc {
  import opened Types
  import opened Backoff

  const MAX_BACKOFF: nat := 30

  /** A connection is named by a number; both halves of it come from one `connect`. */
  datatype Inner = Inner(inbound: Option<nat>, outbound: Option<nat>, backoff: nat)

  datatype Message = MessageDropped | Received | StreamEnded | StreamFailed

  /** What one receive runs into; the connect part only matters when there is no connection. */
  datatype Receive =
    | ConnectDropped
    | ConnectFailed(sleepDropped: bool)
    | Connected(conn: nat, message: Message)

  predicate NeedsConnect(s: Inner) { s.inbound.None? || s.outbound.None? }

  function AfterMessage(s: Inner, m: Message): Inner {
    match m
    case MessageDropped => s
    case Received => s
    case StreamEnded => s.(inbound := None, outbound := None)
    case StreamFailed => s.(inbound := None, outbound := None)
  }

  function Step(s: Inner, r: Receive): Inner {
    match r
    case ConnectDropped => s
    case ConnectFailed(_) => if NeedsConnect(s) then s.(backoff := Min(2 * s.backoff, MAX_BACKOFF)) else s
    case Connected(conn, m) =>
      AfterMessage(if NeedsConnect(s) then Inner(Some(conn), Some(conn), 1) else s, m)
  }

  /** The outcomes of the connection attempts a run of receives makes. */
  function Attempt(s: Inner, r: Receive): seq<bool> {
    if !NeedsConnect(s) || r.ConnectDropped? then [] else [r.Connected?]
  }

  function Run(receives: seq<Receive>): (Inner, seq<bool>) {
    if receives == [] then (Inner(None, None, 1), [])
    else
      var (s, attempts) := Run(receives[..|receives| - 1]);
      var r := receives[|receives| - 1];
      (Step(s, r), attempts + Attempt(s, r))
  }

  /** Both halves present, from the same connection, or both absent. */
  predicate Paired(s: Inner) { s.inbound == s.outbound }

  /**
   In every run, wherever receives are dropped: the stream and the sender are
   halves of one connection or both missing, and the stored backoff is
   `min(2^m, 30)` seconds after `m` failed attempts in a row.
   */
  lemma {:induction false} RunKeepsPairing(receives: seq<Receive>)
    ensures var (s, attempts) := Run(receives);
            Paired(s) && s.backoff == Min(Pow2(Streak(attempts)), 30)
  {
    if receives == [] {
      FirstDelay(MAX_BACKOFF);
    } else {
      var before := receives[..|receives| - 1];
      RunKeepsPairing(before);
      var (s, attempts) := Run(before);
      var r := receives[|receives| - 1];
      if Attempt(s, r) == [] {
        assert attempts + Attempt(s, r) == attempts;
      } else {
        DelayNext(attempts, r.Connected?, MAX_BACKOFF);
      }
    }
  }

  /**
   A connection is kept, with its halves and its backoff, as long as it delivers;
   it is given up, both halves, when its stream ends or fails; and there is a new
   one just when a connect succeeded without one.
   */
  lemma ConnectionLife(s: Inner, r: Receive)
    requires Paired(s)
    ensures var s' := Step(s, r);
            var broken := r.Connected? && r.message in {StreamEnded, StreamFailed};
            && (broken ==> s'.inbound.None? && s'.outbound.None?)
            && (!broken && s.inbound.Some? ==> s' == s)
            && (!broken && s.inbound.None? ==>
                  s'.inbound == if r.Connected? then Some(r.conn) else None)
  {
  }

  class GrpcTransport {
    var inbound: Option<nat>
    var outbound: Option<nat>
    var backoff: nat

    ghost function View(): Inner
      reads this
    {
      Inner(inbound, outbound, backoff)
    }

    constructor ()
      ensures View() == Inner(None, None, 1)
    {
      inbound, outbound, backoff := None, None, 1;
    }

    /** One receive. With both halves paired, the stream it unwraps is always there. */
    method RecvTasks(r: Receive) returns (error: bool)
      requires Paired(View())
      modifies this
      ensures View() == Step(old(View()), r) && Paired(View())
      ensures error <==> r.Connected? && r.message == StreamFailed
    {
      error := false;
      if r.ConnectDropped? {
        return;
      }
      if inbound.None? || outbound.None? {
        if r.ConnectFailed? {
          backoff := Min(backoff * 2, MAX_BACKOFF);
          return;
        }
        inbound := Some(r.conn);
        outbound := Some(r.conn);
        backoff := 1;
      }
      assert inbound.Some?;
      if r.Connected? {
        if r.message == StreamEnded || r.message == StreamFailed {
          inbound := None;
          outbound := None;
        }
        error := r.message == StreamFailed;
      }
    }

    /** A result is sent just when there is a stream to receive on and the sender's other end takes it. */
    method SendResult(taken: bool) returns (ok: bool)
      requires Paired(View())
      ensures ok <==> inbound.Some? && taken
    {
      if outbound.None? {
        return false;
      }
      ok := taken;
    }
  }
}
