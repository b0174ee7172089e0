/** Optional values (PHP's nullable types) and results that may carry an exception. */
module Wrappers {

  /** `None` stands for PHP `null` in a nullable (`?T`) position. */
  datatype Option<+T> = None | Some(value: T) {

    /** The wrapped value, or `default` when absent. */
    function GetOr(default: T): T {
      match this
      case Some(v) => v
      case None => default
    }
  }

  /** The outcome of an operation that may throw. */
  datatype Result<+R, +E> = Success(value: R) | Failure(error: E)
}
