/** Optional values and error-carrying results shared by the whole model. */
module Results {

  /** A value that may be absent: JavaScript's `null` for a record field or a selection. */
  datatype Option<+T> = None | Some(value: T)

  /** The outcome of an operation that either yields a value or throws an error message. */
  datatype Result<+T> = Ok(value: T) | Err(message: string)
}
