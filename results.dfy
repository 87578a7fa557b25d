/** Failure-carrying values used in place of JavaScript's `null` and `throw`. */
module Results {

  /** A value that may be absent (JavaScript `null`). */
  datatype Option<T> = None | Some(value: T)

  /** The outcome of a computation that may throw: its value, or what it throws. */
  datatype Result<T, E> = Success(value: T) | Failure(error: E)
}
