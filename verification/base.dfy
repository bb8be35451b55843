/** Failure-carrying wrappers shared by every module of the parser model. */
module Base {

  /** A value that may be absent: a regular-expression match that failed, a
      search that found nothing. */
  datatype Option<+T> = None | Some(value: T)

  /** The `(value, error)` pair of a Go function that either succeeds or
      returns an error, with exactly one of the two present. */
  datatype Result<+R, +E> = Success(value: R) | Failure(error: E)
}
