/** Option and Result values standing for Java's `null` returns and thrown exceptions. */
module Wrappers {

  /** `None` stands for a Java `null` reference. */
  datatype Option<+T> = None | Some(value: T)

  /** `Failure` stands for an exception the Java code throws. */
  datatype Result<+T, +E> = Success(value: T) | Failure(error: E)
}
