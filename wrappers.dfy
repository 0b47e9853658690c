/** Option and Result values shared by every module of the model. */
module Wrappers {

  /** A value that may be absent (Rust `Option`, a JavaScript `undefined`/`null`). */
  datatype Option<+T> = None | Some(value: T)

  /** An outcome that is either a value or an error (Rust `Result`, a thrown error). */
  datatype Result<+T, +E> = Ok(value: T) | Err(error: E)

  /** The unit value, for results that carry no data. */
  datatype Unit = Unit
}
