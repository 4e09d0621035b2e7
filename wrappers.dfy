/** Option and Result, the two failure-carrying datatypes the configuration model uses. */
module Wrappers {

  /** A value that may be absent: Python's `Optional[T]`. */
  datatype Option<+T> = None | Some(value: T)

  /** The outcome of a constructor call that may raise a validation error. */
  datatype Result<+T, +E> = Ok(value: T) | Err(error: E)
}
