/** Small datatypes shared by the screens: an optional value (JavaScript's
    `null`/`undefined` versus a present value) and the outcome of a network
    call, which either delivers data or fails. */
module Wrappers {

  /** A value that may be absent. `None` stands for `null` or `undefined`. */
  datatype Option<+T> = None | Some(value: T) {

    /** The value when present, otherwise `default` (an object spread that
        only overrides the keys it has). */
    function GetOr(default: T): T {
      match this
      case Some(v) => v
      case None => default
    }
  }

  /** The abstract outcome of an HTTP request: success carrying the decoded
      JSON body, or failure (transport error, non-ok status, bad JSON). */
  datatype Outcome<+T> = Success(data: T) | Failure
}
