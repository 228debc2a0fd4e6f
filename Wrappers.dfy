/** Option and Result, the two failure-carrying wrappers the rest of the model uses. */
module Wrappers {

  /** An optional value: TypeScript's `T | null` and Python's `None`. */
  datatype Option<+T> = None | Some(value: T) {
    /** The wrapped value, or `default` when absent. */
    function GetOr(default: T): T {
      match this
      case Some(v) => v
      case None => default
    }
  }

  /** A result or the message of the error that was thrown instead. */
  datatype Result<+R, +E> = Success(value: R) | Failure(error: E)
}
