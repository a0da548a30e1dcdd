/** Failure-compatible wrappers shared by the models: Java's nullable references become
    Option, exceptions become the error side of Result or Outcome. */
module Wrappers {

  /** A nullable reference: None is Java's null. */
  datatype Option<+T> = None | Some(value: T)

  /** A value or the exception raised instead of it. */
  datatype Result<+T, +E> = Ok(value: T) | Err(error: E)

  /** A check that either returns normally or raises. */
  datatype Outcome<+E> = Pass | Fail(error: E)
}
