/** Option and Result, the shapes every Go `(value, error)` and `(value, ok)` pair is modelled with. */
module Wrappers {

  datatype Option<+T> = None | Some(value: T)

  /** A Go `(T, error)` return: `Ok(v)` when the error is nil, `Err(e)` otherwise. */
  datatype Result<+T, +E> = Ok(value: T) | Err(error: E)
}
