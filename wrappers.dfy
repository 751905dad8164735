/** Failure-carrying return values used where the Python code returns `None` or raises. */
module Wrappers {

  /** A value or Python's `None`. */
  datatype Option<+T> = None | Some(value: T)

  /** A value, or the `ValueError` the Python code raises, with its message. */
  datatype Result<+T> = Ok(value: T) | Err(message: string)

  /** The outcome of a call that returns nothing on success. */
  datatype Outcome = Pass | Fail(message: string)
}
