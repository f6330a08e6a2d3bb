/** Optional and success-or-error outcomes. */
module Wrappers {

  /** A value that may be missing: the result of a search that can find nothing. */
  datatype Option<+T> = None | Some(value: T)

  /** Either the value of a successful computation or the error that stopped it. */
  datatype Result<+R, +E> = Success(value: R) | Failure(error: E)
}
