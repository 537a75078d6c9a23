/** Optional values and success-or-error values, standing in for Ruby's `nil` and for
    raising an exception. */
module Wrappers {

  datatype Option<+T> = None | Some(value: T)

  datatype Result<+T, +E> = Success(value: T) | Failure(error: E)
}
