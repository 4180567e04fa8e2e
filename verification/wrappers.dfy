/** Failure-compatible wrappers shared by the model: `Option` stands for a Go
    pointer that may be nil, `Result` for a value-or-error pair, and
    `Outcome` for a bare Go `error` (nil is `Pass`). */
module Wrappers {

  datatype Option<+T> = None | Some(value: T) {

    /** The pointed-to value, or `default` when the pointer is nil. */
    function GetOr(default: T): T {
      match this
      case Some(v) => v
      case None => default
    }
  }

  datatype Result<+R, +E> = Success(value: R) | Failure(error: E)

  datatype Outcome<+E> = Pass | Fail(error: E)
}
