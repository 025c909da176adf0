/** Option and Result, for the error paths (Python exceptions) of the model. */
module Wrappers {

  datatype Option<+T> = None | Some(value: T)

  datatype Result<+R, +E> = Ok(value: R) | Err(error: E)

  /** Outcome of a validating setter: the write happened, or it raised. */
  datatype Outcome<+E> = Pass | Fail(error: E)
}
