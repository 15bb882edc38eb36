/** Failure-carrying wrappers used throughout the model. */
module Wrappers {

  /** An optional value: `None` stands for JavaScript's `undefined` or an absent key. */
  datatype Option<+T> = None | Some(value: T) {
    function GetOr(default: T): T {
      match this
      case Some(v) => v
      case None => default
    }
  }

  /** A computation that either returns a value or throws. */
  datatype Result<+T, +E> = Success(value: T) | Failure(error: E)
}
