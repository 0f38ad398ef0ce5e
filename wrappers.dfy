/** Optional values (Swift's `T?`) and fallible results (Swift's `throws`). */
module Wrappers {

  datatype Option<+T> = None | Some(value: T) {

    /** Swift's `??` operator. */
    function GetOr(default: T): T {
      match this
      case Some(v) => v
      case None => default
    }
  }

  datatype Result<+T, +E> = Success(value: T) | Failure(error: E)
}
