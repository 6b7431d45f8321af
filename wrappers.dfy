/** Failure-carrying values shared by every module of the model. */
module Wrappers {

  /** A value that may be absent (Rust `Option`, a TypeScript optional field). */
  datatype Option<+T> = None | Some(value: T)

  /** A value or an error message (Rust `Result<T, String>`, a thrown `Error`). */
  datatype Result<+T> = Ok(value: T) | Err(error: string)

  /** The outcome of an operation that returns only success or an error message
      (Rust `Result<(), String>`). */
  datatype Outcome = Pass | Fail(error: string)
}
