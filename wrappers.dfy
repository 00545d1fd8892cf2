// Option and Result, plus the errors that the service raises.

module Wrappers {

  datatype Option<T> = None | Some(value: T)

  /**
   * An `HTTPException(status_code, detail)` raised by a route or a service, or another
   * exception (a `ValueError`, a database integrity error) that aborts the request.
   */
  datatype Error = HttpError(status: int, detail: string) | Raised(kind: string)

  datatype Result<T> = Ok(value: T) | Err(error: Error) {
    predicate IsFailure() {
      Err?
    }

    function PropagateFailure<U>(): Result<U>
      requires Err?
    {
      Err(error)
    }

    function Extract(): T
      requires Ok?
    {
      value
    }
  }

  /** The status code a failed result answers with (500 for an unhandled exception), 200 otherwise. */
  function StatusOf<T>(r: Result<T>): int
  {
    if r.Ok? then 200
    else if r.error.HttpError? then r.error.status
    else 500
  }
}
