/** Optional values and results with an error, in place of Java's null and exceptions. */
module Wrappers {

  /** A value that may be absent; stands for a Java reference that may be null. */
  datatype Option<+T> = None | Some(value: T)

  /** The outcome of an operation that may fail with an error. */
  datatype Result<+T, +E> = Ok(value: T) | Err(error: E)
}
