/** Option and Result: absent values and raised errors of the modelled program. */
module Wrappers {

  /** A value that may be absent (Python's None, or an empty XPath result). */
  datatype Option<+T> = None | Some(value: T)

  /** The outcome of an operation that may raise: its value, or the error it raised. */
  datatype Result<+T, +E> = Success(value: T) | Failure(error: E)
}
