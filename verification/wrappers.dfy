/** Failure-carrying result types shared by the whole model.
    `Error` names the Python exception a code path ends in. */
module Wrappers {

  datatype Option<+T> = None | Some(value: T)

  /** The Python exception classes the modelled code raises or runs into. */
  datatype Error =
    | ValueError(msg: string)
    | TypeError(msg: string)
    | IndexError
    | KeyError(key: string)
    | ZeroDivisionError

  datatype Result<+R> = Ok(value: R) | Err(error: Error) {
    predicate IsFailure() { Err? }
  }
}
