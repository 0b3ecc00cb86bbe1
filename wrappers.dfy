/** Option and Result, used for JavaScript's `null`/`undefined` and for
    operations that fail (a rejected promise, a thrown exception). */
module Wrappers {

  datatype Option<+T> = None | Some(value: T) {
    function GetOr(default: T): T {
      match this
      case Some(v) => v
      case None => default
    }
  }

  datatype Result<+T, +E> = Success(value: T) | Failure(error: E)
}
