/** Option, Result and Outcome: stand-ins for Java's null and for a thrown exception. */
module Wrappers {

  /** A Java reference that may be null: None is null. */
  datatype Option<+T> = None | Some(value: T)

  /** A value, or the exception that was thrown instead of producing it. */
  datatype Result<+R, +E> = Success(value: R) | Failure(error: E)

  /** A void call that returned normally, or the exception it threw. */
  datatype Outcome<+E> = Pass | Fail(error: E)
}
