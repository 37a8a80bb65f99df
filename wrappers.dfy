/** The Rust `Result` type that the validity checks return. */
module Wrappers {

  datatype Result<+T, +E> = Ok(value: T) | Err(error: E)
}
