/** The model's stand-ins for Python's `None` values and raised exceptions. */
module Results {

  /** A dictionary value that may be Python's `None`. */
  datatype Option<+T> = None | Some(value: T)

  /** The outcome of an operation that may raise instead of returning. */
  datatype Result<+T, +E> = Success(value: T) | Failure(error: E)
}
