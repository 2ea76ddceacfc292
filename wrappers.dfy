/** Optional values and success/failure results shared by the other modules. */
module Wrappers {

  /** A value that may be absent (JavaScript `undefined` or `null`). */
  datatype Option<+T> = None | Some(value: T) {
    function GetOr(default: T): T {
      match this
      case Some(v) => v
      case None => default
    }
  }

  /** Either a value or a description of what went wrong. */
  datatype Result<+R, +E> = Success(value: R) | Failure(error: E)
}
