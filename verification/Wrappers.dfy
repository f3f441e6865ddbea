/** Failure-aware result types shared by the other modules. */
module Wrappers {

  /** A value that may be missing (a Go nil pointer, a Python None, a JavaScript null). */
  datatype Option<+T> = None | Some(value: T)

  /** A returned value or a raised error. */
  datatype Result<+T, +E> = Ok(value: T) | Err(error: E)
}
