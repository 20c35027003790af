/** Option and Result: absent values and error returns of the modelled code. */
module Wrappers {

  /** A value that may be missing (Python's None). */
  datatype Option<+T> = None | Some(value: T) {

    /** The value, or `default` when it is missing (Python's `d.get(key, default)`). */
    function GetOr(default: T): T {
      match this
      case Some(v) => v
      case None => default
    }
  }

  /** Either the record an operation created or the error it returned. */
  datatype Result<+T, +E> = Success(value: T) | Failure(error: E)
}
