/** Option and Result: Python's `None` and raised exceptions, as values. */
module Wrappers {

  /** A value that may be absent (Python's `None`). */
  datatype Option<+T> = None | Some(value: T)

  /** The outcome of an operation that Python would abort with an exception. */
  datatype Result<+T, +E> = Ok(value: T) | Err(error: E)
}
