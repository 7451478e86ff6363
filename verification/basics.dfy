/** Small failure-compatible wrappers shared by the model: a value that may be
    absent (a Python `None` or a missing dictionary key) and the outcome of a
    request handler, which either answers or raises an HTTP error. */
module Basics {

  datatype Option<+T> = None | Some(value: T) {

    /** The value, or `default` when absent (Python's `dict.get(key, default)`). */
    function GetOr(default: T): T {
      match this
      case Some(v) => v
      case None => default
    }
  }

  datatype Result<+R, +E> = Success(value: R) | Failure(error: E)

  /** An `HTTPException(code, detail=...)` raised by a request handler. */
  datatype HttpError = HttpError(code: nat, detail: string)
}
