/** Optional values and results that carry an error message, standing in for Go's
    nil pointers and `(value, error)` pairs. */
module Basics {

  /** A value that may be absent (a Go nil pointer or nil function). */
  datatype Option<+T> = None | Some(value: T)

  /** A value or an error; Go errors are modelled by their message. */
  datatype Result<+T> = Ok(value: T) | Err(error: string)
}
