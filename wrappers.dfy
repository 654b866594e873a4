/** Option and Result datatypes used for PHP's null and for thrown exceptions. */
module Wrappers {

  /** `None` stands for PHP's null. */
  datatype Option<+T> = None | Some(value: T)

  /** `Failure` stands for an exception thrown instead of a value returned. */
  datatype Result<+R, +E> = Success(value: R) | Failure(error: E)
}
