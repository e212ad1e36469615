/** Option and Result, used for the store's empty slots and for a gateway call
    that may fail instead of raising an exception. */
module Wrappers {

  datatype Option<+T> = None | Some(value: T)

  datatype Result<+R, +E> = Success(value: R) | Failure(error: E)
}
