/** Optional values and results, standing in for Python's `None` and for
    exceptions that a caller catches. */
module Wrappers {

  /** A value that may be absent: a dictionary key that is missing, or `None`. */
  datatype Option<+T> = None | Some(value: T) {

    /** The value, or `default` when absent (Python's `dict.get(key, default)`). */
    function GetOr(default: T): T {
      match this
      case Some(v) => v
      case None => default
    }
  }

  /** The outcome of an operation that either returns a value or raises an error. */
  datatype Result<+R, +E> = Success(value: R) | Failure(error: E)
}
