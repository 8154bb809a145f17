/** Optional values and results with an error, for Python's `None` and for
    the exceptions the planner raises. */
module Wrappers {

  datatype Option<+T> = None | Some(value: T)

  datatype Result<+R, +E> = Success(value: R) | Failure(error: E)
}
