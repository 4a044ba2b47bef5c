/** Option and Result values standing in for PHP's `null` and thrown exceptions. */
module Wrappers {

  /** `None` plays the part of PHP's `null`. */
  datatype Option<+T> = None | Some(value: T)

  /** `Failure` plays the part of an exception escaping a call. */
  datatype Result<+R, +E> = Success(value: R) | Failure(error: E)
}
