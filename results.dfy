/** Failure-carrying wrappers shared by the model: Go's `(value, error)` pairs and
    nil-or-error returns are written as these datatypes. */
module Results {

  /** A value that may be absent (a Go `error` that may be nil, a map lookup). */
  datatype Option<+T> = None | Some(value: T)

  /** Either a value or an error, as a Go function returning `(T, error)`. */
  datatype Result<+T, +E> = Success(value: T) | Failure(error: E)
}
