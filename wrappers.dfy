/** Option, Result and HTTP error values shared by the model's modules. */
module Wrappers {

  /** A value that may be absent: a JavaScript `undefined` or `null`. */
  datatype Option<+T> = None | Some(value: T)

  /** The outcome of an operation that either returns a value or raises an error. */
  datatype Result<+T, +E> = Ok(value: T) | Err(error: E)

  /** An HTTP exception with its message; Nest's `UnauthorizedException` is the only one raised. */
  datatype HttpError = Unauthorized(message: string)
}
