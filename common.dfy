/** Failure-carrying results shared by the server handlers and the client stores. */
module Common {

  datatype Option<+T> = None | Some(value: T) {
    function GetOr(default: T): T {
      match this
      case Some(v) => v
      case None => default
    }
  }

  datatype Result<+R, +E> = Ok(value: R) | Err(error: E)

  /** The error response sent by `kunError(event, message, code, statusCode)`:
      the HTTP status plus the `{ code, message }` body. */
  datatype HttpError = HttpError(status: int, code: int, message: string)

  /** `kunError` as the handlers call it, with the body code equal to the status. */
  function Fail(status: int, message: string): HttpError {
    HttpError(status, status, message)
  }
}
