/** Failure-carrying values shared by every module of the model. */
module Wrappers {

  /** A value that may be absent: `undefined`/`null` in the original. */
  datatype Option<+T> = None | Some(value: T) {
    function GetOr(default: T): T {
      match this
      case Some(v) => v
      case None => default
    }
  }

  /** The outcome of an operation that either returns or throws. */
  datatype Result<+R, +E> = Success(value: R) | Failure(error: E)
}
