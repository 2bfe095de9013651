/** Option and Result, used for values the source leaves `undefined` and for
    the TypeError a missing aircraft type raises. */
module Wrappers {

  datatype Option<+T> = None | Some(value: T)

  datatype Result<+T, +E> = Success(value: T) | Failure(error: E)
}
