/** Wrappers standing for Java's null and for thrown exceptions. */
module Wrappers {

  /** A value that may be absent: `None` stands for Java's `null`. */
  datatype Option<+T> = None | Some(value: T)

  /** The outcome of a Java call that either returns or throws. */
  datatype Result<+T, +E> = Success(value: T) | Failure(error: E)
}
