/** Option and Result: Java's nullable references and thrown exceptions, as values. */
module Wrappers {

  /** A reference that may be null (`None`). */
  datatype Option<+T> = None | Some(value: T) {
    function GetOr(default: T): T {
      match this
      case Some(v) => v
      case None => default
    }
  }

  /** The outcome of a Java call: a returned value, or the exception it threw. */
  datatype Result<+T, +E> = Success(value: T) | Failure(error: E)
}
