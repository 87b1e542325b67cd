/** Option and Result values shared by the modules of this model. */
module Wrappers {

  /** An optional value: `None` stands for JavaScript's `null` or `undefined`. */
  datatype Option<+T> = None | Some(value: T)

  /** The outcome of an awaited call: a value, or the error it threw. */
  datatype Result<+T, +E> = Ok(value: T) | Err(error: E)
}
