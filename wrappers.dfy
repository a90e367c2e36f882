/** Success/failure values standing in for the exceptions and `None`s of the Python code. */
module Wrappers {

  datatype Option<+T> = None | Some(value: T)

  /** `Ok(value)` is a normal return; `Err(error)` is a raised exception carrying `error`. */
  datatype Result<+T, +E> = Ok(value: T) | Err(error: E)
}
