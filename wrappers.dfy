/** Optional values and success-or-error results, used wherever the source
    has `undefined`, `NaN` or an early return with an alert. */
module Wrappers {

  datatype Option<+T> = None | Some(value: T)

  datatype Result<+R, +E> = Success(value: R) | Failure(error: E)
}
