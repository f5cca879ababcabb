/** Failure-carrying results shared by every module of the model.

    The Python sources signal failures by raising exceptions; the model returns a
    `Result` whose error side names the exception class that would be raised. */
module Wrappers {

  datatype Option<+T> = None | Some(value: T)

  /** The exception classes the modelled code raises (or lets an `assert` raise). */
  datatype Raised =
    | TypeError(message: string)
    | ValueError(message: string)
    | AssertionError(message: string)
    | RuntimeError(message: string)
    | IndexError(message: string)

  datatype Result<+T> = Ok(value: T) | Err(error: Raised)
}
