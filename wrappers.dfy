/** Option and Result, used for Python's `None` values and for the exceptions
    a computation can end in. */
module Wrappers {

  datatype Option<+T> = None | Some(value: T)

  datatype Result<+R, +E> = Success(value: R) | Failure(error: E)
}
