/** Optional values and success-or-error results, used for the `(value, error)` pairs
    that the Go code returns. */
module Results {

  datatype Option<+T> = None | Some(value: T)

  datatype Result<+T, +E> = Success(value: T) | Failure(error: E)
}
