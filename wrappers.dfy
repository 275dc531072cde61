/** Failure-compatible wrappers used across the model: an optional value
    (Python's `Optional[...]` / `None`) and a value-or-error result (a
    returned value or a raised `HTTPException`). */
module Wrappers {

  datatype Option<+T> = None | Some(value: T) {
    function GetOr(default: T): T {
      match this
      case Some(v) => v
      case None => default
    }
  }

  datatype Result<+R, +E> = Success(value: R) | Failure(error: E)
}
