/** Option and Result, the two failure-carrying datatypes the model uses. */
module Wrappers {

  datatype Option<+T> = None | Some(value: T)

  /** The outcome of a fallible step: a value, or the error that ended the step. */
  datatype Result<+T, +E> = Ok(value: T) | Err(error: E)
}
