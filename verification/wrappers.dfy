/** Failure-compatible wrappers: the model's stand-in for Java's null and
    for exceptions that a caller observes as a value. */
module Wrappers {

  /** An optional value: `None` plays the role of Java's `null`. */
  datatype Option<+T> = None | Some(value: T)

  /** Either a computed value or the reason it could not be computed. */
  datatype Result<+R, +E> = Success(value: R) | Failure(error: E)
}
