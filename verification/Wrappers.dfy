/** Optional values and results: Go's nil reference, missing map entry or `nil` error is
    `None`; a value returned beside an error is a `Result`.
 */
module Wrappers {
  datatype Option<+T> = None | Some(value: T)

  datatype Result<+T, +E> = Success(value: T) | Failure(error: E)
}
