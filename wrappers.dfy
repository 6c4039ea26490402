/** Option, Result and Outcome for the nulls and exceptions of the Java and Kotlin code. */
module Wrappers {

  /** A value that may be missing: `None` stands for Java's `null`. */
  datatype Option<+T> = None | Some(value: T)

  /** A computation that returns a value or throws. */
  datatype Result<+R, +E> = Success(value: R) | Failure(error: E)

  /** A computation that completes normally or throws. */
  datatype Outcome<+E> = Pass | Fail(error: E)
}
