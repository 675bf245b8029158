/** Optional values and results of requests that may fail. */
module Wrappers {

  /** A value that may be absent (`undefined` in the source). */
  datatype Option<+T> = None | Some(value: T) {
    function GetOr(default: T): T {
      match this
      case Some(v) => v
      case None => default
    }
  }

  /** The outcome of an operation that resolves with a value or rejects with an error. */
  datatype Result<+R, +E> = Success(value: R) | Failure(error: E)
}
