/** Option and Result, used for the source's optional fields and for the
    quote that cannot be computed. */
module Wrappers {

  datatype Option<+T> = None | Some(value: T)

  datatype Result<+R, +E> = Success(value: R) | Failure(error: E)
}
