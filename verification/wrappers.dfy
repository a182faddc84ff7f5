/** Optional values and error-carrying results shared by the layout modules. */
module Wrappers {

  /** A value that may be absent: an omitted prop, an unset ref, a missing context. */
  datatype Option<+T> = None | Some(value: T) {

    /** The wrapped value, or `default` when absent (the `??` / default-parameter rule). */
    function GetOr(default: T): T {
      match this
      case Some(v) => v
      case None => default
    }
  }

  /** Either a value or the error that was thrown instead. */
  datatype Result<+T, +E> = Success(value: T) | Failure(error: E)
}
