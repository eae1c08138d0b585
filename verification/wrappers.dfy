/** Failure-carrying datatypes shared by the whole model. */
module Wrappers {

  /** An optional value, as Rust's `Option`. */
  datatype Option<+T> = None | Some(value: T)

  /** A value or an error, as Rust's `Result`. */
  datatype Result<+T, +E> = Ok(value: T) | Err(error: E)

  /** The result of an external step that returns nothing on success. */
  datatype Outcome<+E> = Pass | Fail(error: E)
}
