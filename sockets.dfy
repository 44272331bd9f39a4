/** The ready state of a `ws` WebSocket, the only part of the socket library
    the core inspects. */
module Sockets {

  /** `WebSocket.CONNECTING`, `OPEN`, `CLOSING` and `CLOSED` (0 to 3). */
  datatype ReadyState = Connecting | Open | Closing | Closed

  function Code(s: ReadyState): nat {
    match s
    case Connecting => 0
    case Open => 1
    case Closing => 2
    case Closed => 3
  }

  /** A socket's state only moves forward: it is never reopened. */
  predicate Advances(before: ReadyState, after: ReadyState) {
    Code(before) <= Code(after)
  }
}
