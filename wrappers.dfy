/** Optional values and HTTP-style results shared by the backend and client models. */
module Wrappers {

  datatype Option<T> = None | Some(value: T)

  /** An HTTP error response as FastAPI sends it: a status code and the `detail` text. */
  datatype HttpError = HttpError(status: int, detail: string)

  /** The outcome of a request handler: a value, or the HTTPException it raises. */
  datatype Result<T> = Ok(value: T) | Err(error: HttpError) {

    predicate IsFailure() {
      Err?
    }

    function PropagateFailure<U>(): Result<U>
      requires Err?
    {
      Err(error)
    }

    function Extract(): T
      requires Ok?
    {
      value
    }
  }

  function Fail<T>(status: int, detail: string): Result<T> {
    Err(HttpError(status, detail))
  }

  /** The status code of a failed result, 0 for a success. */
  function StatusOf<T>(r: Result<T>): int {
    if r.Err? then r.error.status else 0
  }

  /** Truthiness of an optional string in Python and JavaScript: present and not empty. */
  predicate Truthy(s: Option<string>) {
    s.Some? && s.value != ""
  }

  /** `s || fallback` on an optional string. */
  function OrElse(s: Option<string>, fallback: string): string {
    if Truthy(s) then s.value else fallback
  }
}
