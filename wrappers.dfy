/** Option and Result, the two failure-carrying datatypes the accessors return. */
module Wrappers {

  /** Rust's `Option<T>`: a decoder returns `None` for a code it does not know. */
  datatype Option<+T> = None | Some(value: T)

  /** Rust's `Result<T, E>`: a pointer resolution that can fail on malformed input. */
  datatype Result<+T, +E> = Ok(value: T) | Err(error: E)
}
