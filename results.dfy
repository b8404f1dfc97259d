/** Failure-compatible wrappers shared by the Python side and the frontend. */
module Results {

  /** A value that may be absent: Python's `None`, an unset optional argument. */
  datatype Option<+T> = None | Some(value: T)

  /** The outcome of a Python call: a value, or the exception it raises. */
  datatype Result<+T, +E> = Ok(value: T) | Err(error: E)
}
