/** Option and Result, used for "no file chosen" and for the outcomes of
    validation and of network round trips. */
module Wrappers {

  datatype Option<+T> = None | Some(value: T)

  datatype Result<+R, +E> = Success(value: R) | Failure(error: E)
}
