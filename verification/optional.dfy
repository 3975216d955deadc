/** The `Option` and `Result` datatypes used by the projection: `Option` for the
    values Python reports as NaN or None, `Result` for a projection the
    Python code cannot produce at all. */
module Optional {

  /** A value that may be undefined (NumPy's NaN, Python's None). */
  datatype Option<+T> = None | Some(value: T)

  /** Either a computed value or the reason the computation raised. */
  datatype Result<+T, +E> = Success(value: T) | Failure(error: E)
}
