/** Failure-compatible wrappers shared by the other modules. */
module Wrappers {

  /** Python's `None` or a present value. */
  datatype Option<+T> = None | Some(value: T) {
    /** `x or default` for an optional string-like value. */
    function GetOr(default: T): T {
      match this
      case Some(v) => v
      case None => default
    }
  }

  /** The outcome of an operation that can fail, with the reason for failure. */
  datatype Result<+T, +E> = Success(value: T) | Failure(error: E)
}
