/** Option and Result: absent values and operations that may throw. */
module Wrappers {

  datatype Option<+T> = None | Some(value: T) {
    function GetOr(default: T): T {
      match this
      case Some(v) => v
      case None => default
    }
  }

  /** `Failure` stands for a JavaScript exception thrown by the operation. */
  datatype Result<+T, +E> = Success(value: T) | Failure(error: E)
}
