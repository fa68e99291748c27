/** Option and Result, used where the Go code returns `(value, ok)` pairs,
    nil-able errors or `(value, error)` pairs. */
module Wrappers {

  datatype Option<+T> = None | Some(value: T)

  datatype Result<+T, +E> = Ok(value: T) | Err(error: E)
}
