/** Small wrappers shared by the whole model: optional values, results, errors and 16-bit ports. */
module Base {

  /** Rust's `Option`. */
  datatype Option<+T> = None | Some(value: T)

  /** Rust's `Result`; the error side is usually `Error`. */
  datatype Result<+T, +E> = Ok(value: T) | Err(error: E)

  /** An `anyhow::Error`: a message from a collaborator, possibly wrapped in added context. */
  datatype Error = Message(text: string) | Context(context: string, cause: Error)

  /** Rust's `u16`, used for container ports and host ports. */
  type uint16 = x: int | 0 <= x < 0x1_0000

}
