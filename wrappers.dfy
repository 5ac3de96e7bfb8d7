/** Option and Result: a null cell of a table, and an operation that can raise. */
module Wrappers {

  /** A table cell that may be null (pandas NaN / None). */
  datatype Option<+T> = None | Some(value: T) {
    /** The value, or `default` when null (pandas `fillna(default)`). */
    function GetOr(default: T): T {
      match this
      case Some(v) => v
      case None => default
    }
  }

  /** The value of an operation, or the exception it raises. */
  datatype Result<+T, +E> = Success(value: T) | Failure(error: E)
}
