/** Option and Result, the two failure-compatible wrappers used throughout the model. */
module Wrappers {

  /** `None` stands for JavaScript's `undefined` (an absent property or argument). */
  datatype Option<+T> = None | Some(value: T) {
    function GetOr(default: T): T {
      match this
      case Some(v) => v
      case None => default
    }
  }

  /** The outcome of an operation that may throw: `Failure` carries what was thrown. */
  datatype Result<+R, +E> = Success(value: R) | Failure(error: E)
}
