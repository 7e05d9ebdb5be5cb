/** Small value types shared by the rest of the model. */
module Common {

  /** One octet of a byte string (Python `bytes`). */
  newtype byte = x: int | 0 <= x < 256

  datatype Option<+T> = None | Some(value: T)

  /** The outcome of an operation that can raise; `error` describes the exception. */
  datatype Result<+T> = Success(value: T) | Failure(error: string)
}
