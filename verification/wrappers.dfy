/** Failure-compatible datatypes shared by every module of the model. */
module Wrappers {

  /** An optional value: JavaScript's `undefined`/`null` versus a present value. */
  datatype Option<+T> = None | Some(value: T) {
    function GetOr(default: T): T {
      match this
      case Some(v) => v
      case None => default
    }
  }

  /** A value or the error an operation would have thrown. */
  datatype Result<+R, +E> = Success(value: R) | Failure(error: E)
}
