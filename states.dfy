/** Connection states: the websocket's own lifecycle and the client-facing
    `ClubbyState` it is translated into. */
module States {

  /** `ClubbyState`: the state the client reports to its observers. */
  datatype ClubbyState = NotConnected | Connecting | Connected | Disconnecting

  /** The underlying websocket's lifecycle states. */
  datatype SocketState = Created | SocketConnecting | Open | Closing | Closed

  /** The translation done by `onStateChanged` before observers are told. */
  function StateOf(s: SocketState): (c: ClubbyState)
    ensures c == NotConnected <==> (s == Created || s == Closed)
    ensures c == Connecting <==> s == SocketConnecting
    ensures c == Connected <==> s == Open
    ensures c == Disconnecting <==> s == Closing
  {
    match s
    case Created => NotConnected
    case Closed => NotConnected
    case SocketConnecting => Connecting
    case Open => Connected
    case Closing => Disconnecting
  }
}
