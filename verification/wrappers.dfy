/** Optional values and results shared by every module. */
module Wrappers {

  /** A value that may be absent (JavaScript `undefined` / `null`). */
  datatype Option<+T> = None | Some(value: T) {

    /** The value if present, else `default` (JavaScript `??`). */
    function GetOr(default: T): T {
      match this
      case Some(v) => v
      case None => default
    }
  }

  /** The outcome of an operation that can throw: a value or an error message. */
  datatype Result<+R, +E> = Success(value: R) | Failure(error: E)
}
