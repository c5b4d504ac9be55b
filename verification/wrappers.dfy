/** Optional values and results with an error message, used for the
    outcomes of parsing and of the filter functions the controller calls. */
module Wrappers {

  datatype Option<+T> = None | Some(value: T)

  datatype Result<+R, +E> = Success(value: R) | Failure(error: E)
}
