/** Option and Result values for the source's `undefined`/`null` fields and thrown errors. */
module Wrappers {

  datatype Option<+T> = None | Some(value: T) {
    /** `x ?? d` and `x || d` on a value that is either absent or present. */
    function GetOr(default: T): T {
      match this
      case Some(v) => v
      case None => default
    }
  }

  datatype Result<+R, +E> = Success(value: R) | Failure(error: E)
}
