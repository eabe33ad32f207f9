/** Optional values and results with an error, as the translation engine uses them. */
module Wrappers {

  /** A value that may be absent (PHP `null`, or a key missing from an array). */
  datatype Option<+T> = None | Some(value: T) {

    /** The value, or `default` when absent: PHP's `$x ?? $default`. */
    function GetOr(default: T): T {
      match this
      case Some(v) => v
      case None => default
    }
  }

  /** The outcome of an operation that may throw. */
  datatype Result<+R, +E> = Success(value: R) | Failure(error: E)
}
