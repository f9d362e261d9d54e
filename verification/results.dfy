/** Option and Result values used where the modelled code can fail or yield nothing. */
module Results {

  /** A value that may be absent (a failed parse, a failed downcast). */
  datatype Option<+T> = None | Some(value: T)

  /** The outcome of an operation that either produces a value or reports an error. */
  datatype Result<+T, +E> = Success(value: T) | Failure(error: E)
}
