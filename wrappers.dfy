/** Option, Result and Outcome: the model's stand-ins for Java's null references and exceptions. */
module Wrappers {

  /** A Java reference that may be null: `None` is null. */
  datatype Option<+T> = None | Some(value: T)

  /** The outcome of a Java call that returns a value or throws. */
  datatype Result<+R, +E> = Success(value: R) | Failure(error: E)

  /** The outcome of a Java call that returns nothing (or `this`) or throws. */
  datatype Outcome<+E> = Pass | Fail(error: E)
}
