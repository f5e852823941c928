/** Absent-or-present values and fallible results, used wherever the client
    either yields a value or throws. */
module Outcomes {

  /** A value that may be absent (`undefined` or `null` on the JavaScript side). */
  datatype Option<+T> = None | Some(value: T) {
    function GetOr(default: T): T {
      match this
      case Some(v) => v
      case None => default
    }
  }

  /** The outcome of an operation that either returns a value or throws. */
  datatype Result<+T, +E> = Success(value: T) | Failure(error: E)
}

/** The kinds of exception the client lets escape to its caller. */
module Errors {

  datatype Error =
      /** A `DataMakerError` thrown by the client itself, with its message. */
    | DataMakerError(message: string)
      /** A `TypeError` raised by the JavaScript runtime, e.g. reading a property of `undefined`. */
    | TypeError(message: string)
      /** A rejected `fetch`, or a response body that `.json()` cannot parse. */
    | TransportError(reason: string)
}
