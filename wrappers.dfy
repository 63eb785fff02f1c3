/** Optional values (Go's nil pointers) and results carrying an error message (Go's `error`). */
module Wrappers {

  /** `None` stands for a nil pointer, `Some(v)` for a pointer to `v`. */
  datatype Option<+T> = None | Some(value: T) {
    /** The pointee, or `default` for nil (what protobuf getters do on a nil message). */
    function GetOr(default: T): T {
      match this
      case Some(v) => v
      case None => default
    }
  }

  /** A Go `(value, error)` pair where exactly one side is meaningful. */
  datatype Result<+R> = Success(value: R) | Failure(error: string)
}
