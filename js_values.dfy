/** The few JavaScript value shapes the mocked server's control flow depends on. */
module JsValues {

  /** The conventional Some/None wrapper, standing in for a value or `null`/`undefined`. */
  datatype Option<+T> = None | Some(value: T) {
    function GetOr(default: T): T {
      match this
      case Some(v) => v
      case None => default
    }
  }

  /**
   * An error value as it reaches a callback or a promise rejection:
   * `Null` for `null`/`undefined` (no error), `Str` for a bare string such as
   * the launcher's 'EADDRINUSE' sentinel, `ErrorObject` for an `Error` instance.
   */
  datatype ErrValue = Null | Str(text: string) | ErrorObject(message: string)

  /** JavaScript truthiness of an error value: the empty string and `null` are falsy. */
  predicate Truthy(e: ErrValue) {
    match e
    case Null => false
    case Str(t) => t != ""
    case ErrorObject(_) => true
  }

  /** The string the launcher reports when the port is already bound. */
  const AddrInUse: ErrValue := Str("EADDRINUSE")

  /** How a promise returned by the server ends: resolved, rejected, or never settled. */
  datatype Settled<T> = Resolved(value: T) | Rejected(reason: ErrValue) | Pending
}
