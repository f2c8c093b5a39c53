/** Option and Result, the two failure-carrying shapes used throughout the model. */
module Wrappers {

  /** A value that may be missing (a `null` document, an absent field). */
  datatype Option<+T> = None | Some(value: T) {
    /** The value, or `default` when there is none (JavaScript's `x ?? default`). */
    function GetOr(default: T): T { if Some? then value else default }
  }

  /** A computation that either produced a value or was rejected with an error. */
  datatype Result<+T, +E> = Success(value: T) | Failure(error: E)
}
