// Failure-carrying results shared by every module: Go's `(value, error)`
// pairs and `(value, ok)` pairs become these.

module Wrappers {

  datatype Option<T> = None | Some(value: T)

  datatype Result<T, E> = Ok(value: T) | Err(error: E)
}
