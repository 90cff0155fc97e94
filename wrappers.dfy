/** Optional values and results shared by every module of the model. */
module Wrappers {
  datatype Option<T> = None | Some(value: T)

  /** A computation that either yields a value or fails with a message (a thrown Error). */
  datatype Result<T> = Success(value: T) | Failure(error: string)
}
