/** Failure-carrying values for the exceptions the portfolio core throws. */
module Results {

  /** The two exception kinds thrown by the core, with their messages. */
  datatype Error =
    | IllegalArgument(message: string)   // java.lang.IllegalArgumentException
    | IllegalState(message: string)      // java.lang.IllegalStateException

  /** Outcome of an operation that returns nothing in the source (void or throws). */
  datatype Outcome = Pass | Fail(error: Error)

  /** Outcome of an operation that returns a value in the source (or throws). */
  datatype Result<+T> = Success(value: T) | Failure(error: Error)

  /** A nullable value: the source's `null`. */
  datatype Option<+T> = None | Some(value: T)
}
