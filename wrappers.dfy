/** Small failure-carrying datatypes shared by the filter modules. */
module Wrappers {

  /** An optional value (Rust's `Option<T>`). */
  datatype Option<+T> = None | Some(value: T)

  /** A value or an error (Rust's `Result<T, E>`). */
  datatype Result<+T, +E> = Ok(value: T) | Err(error: E)

  /** The outcome of an operation that returns `Result<(), E>`. */
  datatype Outcome<+E> = Pass | Fail(error: E)
}
