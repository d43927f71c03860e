/** Failure-carrying wrappers shared by every module of the model. */
module Results {

  /** A value that may be absent: an absent JSON field, a missing map key. */
  datatype Option<+T> = None | Some(value: T)

  /** The Go idiom `(value, err)`: exactly one of the two is meaningful. */
  datatype Result<+T, +E> = Success(value: T) | Failure(error: E)

  /** The Go idiom of a function that returns only an `error`. */
  datatype Outcome<+E> = Pass | Fail(error: E)
}
