/** Option and Result datatypes shared by the other modules. */
module Wrappers {

  /** An optional value: a pending error message, a wait that may block. */
  datatype Option<+T> = None | Some(value: T)

  /** Either a value or the error that a Python `raise` would produce. */
  datatype Result<+T, +E> = Ok(value: T) | Err(error: E)
}
