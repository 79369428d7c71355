/** Failure-compatible value types shared by every module of the connector model. */
module Wrappers {

  /** A Java reference that may be null. */
  datatype Option<+T> = None | Some(value: T)

  /** A Java call that either returns a value or throws. */
  datatype Result<+T, +E> = Ok(value: T) | Err(error: E)

  /** A Java call that returns nothing or throws. */
  datatype Outcome<+E> = Pass | Fail(error: E)
}
