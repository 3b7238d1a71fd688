/** Optional values and results with an error, as used throughout the adapter model. */
module Wrappers {

  /** A value that may be absent: a JavaScript `undefined`/`null` or a missing property. */
  datatype Option<+T> = None | Some(value: T) {
    function GetOr(default: T): T {
      match this
      case Some(v) => v
      case None => default
    }
  }

  /** The outcome of an operation that either succeeds or throws. */
  datatype Result<+R, +E> = Success(value: R) | Failure(error: E)
}
