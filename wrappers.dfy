/** Optional values and success/failure results used across the model. */
module Wrappers {

  datatype Option<+T> = None | Some(value: T)

  /** A Python call that either returns a value or raises; `error` names the exception. */
  datatype Result<+T> = Success(value: T) | Failure(error: string)
}
