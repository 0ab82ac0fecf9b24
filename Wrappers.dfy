/** The two failure-carrying datatypes the rest of the model uses. */
module Wrappers {

  /** A value that may be absent: Go's nil pointer, nil interface or nil error. */
  datatype Option<+T> = None | Some(value: T)

  /** A value, or the reason it could not be produced (a Go panic text or error). */
  datatype Result<+T, +E> = Ok(value: T) | Err(error: E)
}
