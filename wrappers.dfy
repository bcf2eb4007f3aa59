/** Option and Result, the two failure-carrying datatypes the loader uses:
    an environment variable may be unset (`undefined` in the source), and
    every stage of the loader either produces a value or throws. */
module Wrappers {

  datatype Option<+T> = None | Some(value: T) {
    function GetOr(default: T): T {
      match this
      case Some(v) => v
      case None => default
    }
  }

  datatype Result<+R, +E> = Success(value: R) | Failure(error: E)
}
