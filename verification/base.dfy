/** Failure-carrying wrappers shared by every module of the model. */
module Base {

  /** An optional value: a handle that may be absent, a search that may find nothing. */
  datatype Option<T> = None | Some(value: T)

  /** A computation that either produces a value or raises an error. */
  datatype Result<T, E> = Success(value: T) | Failure(error: E)
}
