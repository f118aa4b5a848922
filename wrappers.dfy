/** Option and Result, the two failure-aware wrappers the model uses for
    JavaScript's `undefined`/`null` and for thrown errors. */
module Wrappers {

  /** A value that may be absent (`undefined`, `null`, a failed lookup). */
  datatype Option<+T> = None | Some(value: T)

  /** A computation that either yields a value or throws an error carrying a message. */
  datatype Result<+T, +E> = Ok(value: T) | Err(error: E)
}
