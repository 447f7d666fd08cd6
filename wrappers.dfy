/** Option and Result, the failure-carrying values used throughout the model. */
module Wrappers {

  datatype Option<+T> = None | Some(value: T)

  /** The outcome of an operation that can throw: `Err` carries what it throws. */
  datatype Result<+T, +E> = Ok(value: T) | Err(error: E)
}
