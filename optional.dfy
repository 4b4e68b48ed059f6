/** Optional values and outcomes that either carry a value or an error. */
module Optional {

  /** A value that may be absent: `null`/`undefined` on the JavaScript side. */
  datatype Option<+T> = None | Some(value: T)

  /** The outcome of a step that either produces a value or throws an error with a message. */
  datatype Result<+T, +E> = Success(value: T) | Failure(error: E)
}
