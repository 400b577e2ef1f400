/** The Option and Result datatypes used across the model. */
module Wrappers {

  /** A value that may be absent: a JSON field that is missing or null. */
  datatype Option<+T> = None | Some(value: T) {
    function GetOr(default: T): T {
      match this
      case Some(v) => v
      case None => default
    }
  }

  /** The outcome of a check that either yields a value or refuses with an error code. */
  datatype Result<+R, +E> = Success(value: R) | Failure(error: E)
}
