/** Failure-compatible wrappers used to model Java's nullable references and thrown exceptions. */
module Wrappers {

  /** A value that may be absent; stands for a nullable Java reference (None is null). */
  datatype Option<+T> = None | Some(value: T)

  /** Either a normal return value or the exception a Java call throws. */
  datatype Result<+R, +E> = Ok(value: R) | Err(error: E)

  /** The outcome of a Java `void` call: it returns normally or throws. */
  datatype Outcome<+E> = Pass | Fail(error: E)
}
