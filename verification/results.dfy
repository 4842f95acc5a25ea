/** Failure-carrying values used in place of the plugin's exceptions. */
module Results {

  /** A value that may be absent (Python's `None`). */
  datatype Option<+T> = None | Some(value: T)

  /** Either a computed value or the error that a Python call would have raised. */
  datatype Result<+T, +E> = Success(value: T) | Failure(error: E)
}
