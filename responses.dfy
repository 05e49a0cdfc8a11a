/** Outcomes of the HTTP handlers: a value, or an error status with its message. */
module Responses {

  datatype Option<+T> = None | Some(value: T) {
    function GetOr(default: T): T {
      match this
      case Some(v) => v
      case None => default
    }
  }

  /** An error response: the HTTP status code and the message body. */
  datatype Error = Error(status: int, message: string)

  datatype Result<+T> = Ok(value: T) | Err(error: Error)

  const BadRequest: int := 400
  const Forbidden: int := 403
  const NotFound: int := 404
  const ServerError: int := 500
}
