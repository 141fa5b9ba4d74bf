/** Wrappers for the optional values and the raising paths of the Python code. */
module Wrappers {

  /** A value that may be absent (Python's `Optional`, or a failed lookup). */
  datatype Option<+T> = None | Some(value: T)

  /** The outcome of a call that either returns a value or raises an error. */
  datatype Result<+T, +E> = Ok(value: T) | Err(error: E)
}
