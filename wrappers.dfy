/** Failure-carrying values shared by every module: Go's `(T, error)` pairs and nil-able results. */
module Wrappers {

  /** A value that may be absent: Go's nil slice, nil pointer or nil error. */
  datatype Option<+T> = None | Some(value: T)

  /** Go's `(value, error)` pair: either a value or an error message. */
  datatype Result<+T> = Ok(value: T) | Err(error: string)
}
