/** Optional values and results with an error, as used throughout the model. */
module Wrappers {

  /** A value that may be absent: pandas' NaN, a missing dictionary key. */
  datatype Option<+T> = None | Some(value: T) {
    function GetOr(default: T): T {
      match this
      case Some(v) => v
      case None => default
    }
  }

  /** The value of a step that may raise: `Failure` stands for the exception. */
  datatype Result<+T, +E> = Success(value: T) | Failure(error: E)
}
