/** Option and Result, the two failure-carrying shapes both crates use. */
module Wrappers {

  datatype Option<T> = None | Some(value: T)

  /** Rust's `Result<T, E>`: `Ok(value)` or `Err(error)`. */
  datatype Result<T, E> = Ok(value: T) | Err(error: E)
}
