/** Failure-compatible wrappers shared by the other modules: an optional value
    (JavaScript's `undefined` is `None`) and a success-or-error result. */
module Wrappers {

  datatype Option<+T> = None | Some(value: T)

  datatype Result<+R, +E> = Success(value: R) | Failure(error: E)
}
