/** Optional values and the results of operations that can throw. */
module Results {

  /** A value that may be missing: `None` stands for JavaScript's `null` or `undefined`. */
  datatype Option<+T> = None | Some(value: T)

  /** The outcome of a computation that may throw: `Err` carries the thrown message. */
  datatype Result<+T> = Ok(value: T) | Err(message: string)
}
