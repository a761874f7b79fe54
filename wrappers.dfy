/** Failure-carrying values shared by every module: Go's `(T, error)` pairs and
    nil-able pointers are modelled with these. */
module Wrappers {

  /** A value that may be absent (a nil pointer or a nil `error`). */
  datatype Option<+T> = None | Some(value: T)

  /** A successful value or an error value. */
  datatype Result<+T, +E> = Ok(value: T) | Err(error: E)
}
