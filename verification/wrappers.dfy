/** Failure-carrying values shared by every module of the model. */
module Wrappers {

  datatype Option<+T> = None | Some(value: T)

  /** A Rust `Result`: either a value or an error of type `E`. */
  datatype Result<+T, +E> = Ok(value: T) | Err(error: E)
}
