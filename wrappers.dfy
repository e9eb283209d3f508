/** Failure-carrying results shared by every module of the model. */
module Wrappers {

  /** A value that may be absent: Python's `Optional[T]` / SQL NULL. */
  datatype Option<+T> = None | Some(value: T)

  /** The outcome of an operation that can raise: `Err` carries `str(e)` or an HTTP error. */
  datatype Result<+T, +E> = Ok(value: T) | Err(error: E)

  /** An `HTTPException` raised by a request handler. */
  datatype HttpError = HttpError(status: int, detail: string)

  /** What the web framework answers when a handler raises anything else. */
  const InternalServerError := HttpError(500, "Internal Server Error")

  /** Python truthiness of an optional string: present and non-empty. */
  predicate Truthy(s: Option<string>) {
    s.Some? && s.value != ""
  }

  /** `s or ''` */
  function OrEmpty(s: Option<string>): string {
    if s.Some? then s.value else ""
  }
}
