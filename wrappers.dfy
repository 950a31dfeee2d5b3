/** Option and Result values used throughout the model in place of Python's
    None returns and raised exceptions. */
module Wrappers {

  datatype Option<+T> = None | Some(value: T)

  /** `Err` carries the error the source raises or returns. */
  datatype Result<+T, +E> = Ok(value: T) | Err(error: E)
}
