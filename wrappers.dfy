/** Optional values and results, standing for Go's nil-able pointers and
    `(value, error)` returns. */
module Wrappers {

  /** A Go pointer field: `None` is nil. */
  datatype Option<+T> = None | Some(value: T) {
    /** The pointee, or `default` when the pointer is nil. */
    function GetOr(default: T): T {
      match this
      case Some(v) => v
      case None => default
    }
  }

  /** A Go `(value, error)` pair where exactly one side is meaningful. */
  datatype Result<+R, +E> = Success(value: R) | Failure(error: E)
}
