/** Carriers for outcomes that the source signals by raising an exception. */
module Wrappers {

  /** A value that may be absent. */
  datatype Option<+T> = None | Some(value: T)

  /** A computed value, or the reason the computation raised. */
  datatype Result<+T, +E> = Ok(value: T) | Err(error: E)
}
