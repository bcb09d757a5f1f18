/** Option and Result values used where the modelled code either has "no value"
    or raises an exception. */
module Wrappers {

  datatype Option<+T> = None | Some(value: T) {
    /** The value held, or `default` when there is none. */
    function GetOr(default: T): T {
      match this
      case Some(v) => v
      case None => default
    }
  }

  datatype Result<+T, +E> = Success(value: T) | Failure(error: E)

  /** An action that either completes or fails with an error, and yields nothing. */
  datatype Outcome<+E> = Pass | Fail(error: E)
}
