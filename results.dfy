/** Failure-carrying datatypes shared by the printer model. */
module Results {

  /** A value that may be missing (Python's `None`). */
  datatype Option<+T> = None | Some(value: T)

  /** The value of an operation, or the exception it raises instead. */
  datatype Result<+T, +E> = Success(value: T) | Failure(error: E)

  /** What a command returns to its caller: it completed, or it raised `error`. */
  datatype Outcome<+E> = Pass | Fail(error: E)
}
