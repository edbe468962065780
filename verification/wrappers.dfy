/** Optional values and results used across the model: Go's `(T, error)` pairs
    and nil-able pointers become these. */
module Wrappers {

  /** A nil-able value: Go's `*T` fields and the `ok` half of a parse. */
  datatype Option<+T> = None | Some(value: T) {

    /** The wrapped value, or `default` when absent. */
    function GetOr(default: T): T {
      match this
      case Some(v) => v
      case None => default
    }
  }

  /** Either a value or an error, as a Go function returning `(T, error)` where only one half matters. */
  datatype Result<+T, +E> = Success(value: T) | Failure(error: E)
}
