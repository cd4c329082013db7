/** Failure-compatible wrappers shared by the whole model. */
module Wrappers {

  /** `T | null | undefined` in the application: a value that may be absent. */
  datatype Option<+T> = None | Some(value: T)

  /** The result of an operation that either yields a value or throws. */
  datatype Result<+T, +E> = Ok(value: T) | Err(error: E)

  /** The result of an async operation that resolves without a value or throws. */
  datatype Outcome<+E> = Pass | Fail(error: E)
}
