/**
 * The types a connection shares with its listener: the lifecycle states,
 * the (previous, current) change a listener is told about, and the
 * (message, code, cause) triple of an error notification.
 */
module Connection {
  import opened Wrappers

  datatype ConnectionState = Disconnected | Connecting | Connected

  /** The name Java's enum `toString` gives each state. */
  function StateName(s: ConnectionState): string
  {
    match s
    case Disconnected => "DISCONNECTED"
    case Connecting => "CONNECTING"
    case Connected => "CONNECTED"
  }

  datatype StateChange = StateChange(previous: ConnectionState, current: ConnectionState)

  /** The edges of the lifecycle graph: opening, establishment, and loss from either live state. */
  predicate IsTransition(c: StateChange)
  {
    match (c.previous, c.current)
    case (Disconnected, Connecting) => true
    case (Connecting, Connected) => true
    case (Connecting, Disconnected) => true
    case (Connected, Disconnected) => true
    case _ => false
  }

  /** The identity of a thrown exception; listeners receive the very object that was thrown. */
  datatype Cause = Cause(id: nat)

  datatype ErrorEvent = ErrorEvent(message: string, code: Option<string>, cause: Option<Cause>)
}
