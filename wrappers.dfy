/** Option and Result values shared by both calculator variants. */
module Wrappers {

  /** A value that may be absent, like a Python argument that may be None. */
  datatype Option<+T> = None | Some(value: T)

  /** The outcome of a computation that either returns a value or raises an error. */
  datatype Result<+T, +E> = Ok(value: T) | Err(error: E)
}
