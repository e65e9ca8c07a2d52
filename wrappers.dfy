/** Optional values and results with an error case, shared by every module. */
module Wrappers {

  datatype Option<+T> = None | Some(value: T) {
    function GetOr(default: T): T {
      match this
      case Some(v) => v
      case None => default
    }
  }

  datatype Result<+R, +E> = Success(value: R) | Failure(error: E)

  /** An operation that either completes or raises an error and returns nothing. */
  datatype Outcome<+E> = Pass | Fail(error: E)
}
