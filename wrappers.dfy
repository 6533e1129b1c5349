/** Option and Result values standing in for Go's nil pointers and `(value, error)` returns. */
module Wrappers {

  /** A value that may be absent, as a Go pointer or map lookup that may yield nil. */
  datatype Option<+T> = None | Some(value: T)

  /** The outcome of a call that may fail with an error message. */
  datatype Result<+T> = Ok(value: T) | Err(error: string)
}
