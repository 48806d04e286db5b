/** Option and Result, the failure-carrying values used throughout the model. */
module Wrappers {

  datatype Option<+T> = None | Some(value: T)

  /** The value a Python call returns, or the exception it raises to its caller. */
  datatype Result<+T, +E> = Ok(value: T) | Err(error: E)
}
