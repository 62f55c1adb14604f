/** Option and Result, used for nullable references and for the business exceptions of the services. */
module Wrappers {

  /** A value that may be absent (a Java reference that may be null). */
  datatype Option<+T> = None | Some(value: T)

  /** The outcome of a service call: a value, or the error code of the exception it throws. */
  datatype Result<+T, +E> = Ok(value: T) | Err(error: E)
}
