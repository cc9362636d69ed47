/** Failure-carrying return values used in place of Go's (value, error) pairs. */
module Wrappers {

  datatype Option<+T> = None | Some(value: T) {
    /** The carried value, or `default` when there is none. */
    function GetOr(default: T): T {
      match this
      case Some(v) => v
      case None => default
    }
  }

  datatype Result<+T, +E> = Ok(value: T) | Err(error: E)

  /** An error-or-nothing value, as a Go function returning only `error`. */
  datatype Outcome<+E> = Pass | Fail(error: E)
}
