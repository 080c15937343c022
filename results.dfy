/** Optional values and operations that can fail with a message, as used across the model. */
module Results {

  /** A value that may be absent (TypeScript `undefined` / `null`). */
  datatype Option<+T> = None | Some(value: T)

  /** The outcome of an operation that either returns a value or throws an error with a message. */
  datatype Result<+T> = Ok(value: T) | Err(message: string)
}
