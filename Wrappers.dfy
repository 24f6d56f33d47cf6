/** Optional-value and result datatypes used by the model: an optional value (Java's
    nullable reference) and a result that is either a value or an error (an
    exception thrown by the Java code). */
module Wrappers {

  /** A value that may be absent; `None` stands for Java's `null`. */
  datatype Option<+T> = None | Some(value: T)

  /** Either a computed value or the error the Java code would have thrown. */
  datatype Result<+R, +E> = Success(value: R) | Failure(error: E)
}
