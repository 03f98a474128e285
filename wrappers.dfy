/** Option and Result, used for the nullable pointers and the throwing casts of boost::any. */
module Wrappers {

  datatype Option<+T> = None | Some(value: T)

  datatype Result<+T, +E> = Success(value: T) | Failure(error: E)
}
