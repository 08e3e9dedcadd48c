/** Option and Result, shared by the pool and the client cache. */
module Wrappers {

  /** A value that may be absent: Go's nil error is `None`. */
  datatype Option<+T> = None | Some(value: T)

  /** A value or an error, the Go `(value, error)` return pair. */
  datatype Result<+T, +E> = Ok(value: T) | Err(error: E)
}
