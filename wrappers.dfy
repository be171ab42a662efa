/** Optional values and success/failure results, used for PHP's nullable
    parameters and for its thrown exceptions. */
module Wrappers {

  /** A nullable value: `None` stands for PHP's `null`. */
  datatype Option<+T> = None | Some(value: T)

  /** Either the value an operation returns or the exception it throws. */
  datatype Result<+R, +E> = Success(value: R) | Failure(error: E)
}
