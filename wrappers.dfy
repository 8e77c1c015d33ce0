/** Optional values and results that carry an error: Python's `None` and
    the `ValueError`s raised while building a model. */
module Wrappers {

  datatype Option<+T> = None | Some(value: T)

  datatype Result<+R, +E> = Success(value: R) | Failure(error: E)
}
