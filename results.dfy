/** Failure-carrying values shared by every module: Go's `(T, error)` pairs and nil pointers. */
module Results {

  /** A possibly absent value: a nil pointer or a missing map entry. */
  datatype Option<+T> = None | Some(value: T)

  /** The outcome of a fallible call: a value, or the error it returned. */
  datatype Result<+T, +E> = Ok(value: T) | Err(error: E)
}
