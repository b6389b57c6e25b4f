/** Small shared vocabulary: optional values, results with an error kind, and document ids. */
module Common {
  /** A value that may be absent (`undefined`/`null` in the source). */
  datatype Option<+T> = None | Some(value: T)

  /** The outcome of an operation that either produces a value or reports an error. */
  datatype Result<+T, +E> = Ok(value: T) | Err(error: E)

  /** A MongoDB ObjectId, abstracted to an integer. */
  type Id = int
}
