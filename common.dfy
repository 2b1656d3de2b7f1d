/** Values shared by every layer of the client: optional values, errors and bytes. */
module Common {

  /** An optional value; None stands for Go's nil where the source passes one. */
  datatype Option<+T> = None | Some(value: T)

  /** A Go `error` value. Its content comes from code outside this model and is only passed along. */
  datatype Error = Error(message: string)

  /** The outcome of a call that returns a value or an error, as Go's `(T, error)` pairs do. */
  datatype Result<+T> = Ok(value: T) | Err(error: Error)

  type byte = x: int | 0 <= x < 256

  type Bytes = seq<byte>
}
