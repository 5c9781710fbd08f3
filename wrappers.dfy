/** Option, Result and Outcome: the error paths of the modelled code. */
module Wrappers {

  datatype Option<+T> = None | Some(value: T)

  datatype Result<+T, +E> = Ok(value: T) | Err(error: E)

  /** A success carrying no value, or an error. */
  datatype Outcome<+E> = Pass | Fail(error: E)
}
