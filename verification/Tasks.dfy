/** The functors that the library itself hands to an event loop. */
module Tasks {
  import opened Prelude

  datatype Functor =
    | ConnectEstablished(conn: nat)
    | ConnectDestroyed(conn: nat)
    | RemoveConnection(conn: nat)
    | WriteComplete(conn: nat)
    | HighWater(conn: nat, size: nat)
    | SendInLoop(conn: nat, payload: seq<byte>, sender: nat)
    | ShutdownInLoop(conn: nat)
  {
    /** True when the functor binds a shared pointer, so that it keeps the connection alive.
        `send` and `shutdown` bind a plain `this`. */
    predicate Owns() {
      !SendInLoop? && !ShutdownInLoop?
    }
  }
}

/** `TcpConnection::StateE`. */
module Phases {
  datatype Phase = Connecting | Connected | Disconnecting | Disconnected

  /** The order in which a connection goes through its states. */
  function Rank(p: Phase): nat {
    match p case Connecting => 0 case Connected => 1 case Disconnecting => 2 case Disconnected => 3
  }
}
