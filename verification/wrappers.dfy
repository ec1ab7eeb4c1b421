/** Option and Result for the backend's return values and raised exceptions. */
module Wrappers {

  datatype Option<+T> = None | Some(value: T)

  /** The Python exception classes the backend raises, with their messages
      where the source distinguishes them by message. */
  datatype Error =
    | FileNotFound(msg: string)
    | ValueError(msg: string)
    | TypeError(msg: string)
    | AssertionError(msg: string)
    | IndexError
    | HttpError(status: int, detail: string)

  datatype Result<+T> = Ok(value: T) | Err(error: Error)
}
