/** Stock optional and result types shared by the other modules. */
module Wrappers {

  /** A value that may be absent (Swift's `Optional`). */
  datatype Option<+T> = None | Some(value: T) {
    function GetOr(default: T): T {
      match this
      case Some(v) => v
      case None => default
    }
  }

  /** Either a value or an error (Swift's `Result<Success, Failure>`). */
  datatype Result<+T, +E> = Success(value: T) | Failure(error: E)
}
