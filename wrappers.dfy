/** Optional value and value-or-error wrappers: an optional value (Go's nil-able pointer) and a
    value-or-error pair (Go's `(T, error)` return convention). */
module Wrappers {

  datatype Option<+T> = None | Some(value: T) {

    /** The wrapped value, or `default` when there is none. */
    function GetOr(default: T): T {
      match this
      case Some(v) => v
      case None => default
    }
  }

  datatype Result<+R, +E> = Success(value: R) | Failure(error: E)
}
