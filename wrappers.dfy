/** Small failure-carrying datatypes shared by every module of the model. */
module Wrappers {

  datatype Option<+T> = None | Some(value: T) {
    function GetOr(default: T): T {
      match this
      case Some(v) => v
      case None => default
    }
  }

  datatype Result<+T, +E> = Ok(value: T) | Err(error: E)

  /** The outcome of a validator that either returns normally or raises. */
  datatype Outcome<+E> = Pass | Fail(error: E)

  /** The reply of a call into a foreign library: it raised, or it returned a value. */
  datatype Call<+T> = Raised | Returned(value: T)

  /** An `HTTPException(status_code, detail)` raised by a request handler. */
  datatype HttpError = HttpError(status: int, detail: string)

  /** What the web framework answers when a handler raises an exception it does not catch. */
  const UNHANDLED_EXCEPTION := HttpError(500, "Internal Server Error")

  /** Python truthiness of an optional string: neither None nor "". */
  predicate Present(s: Option<string>) {
    s.Some? && s.value != ""
  }
}
