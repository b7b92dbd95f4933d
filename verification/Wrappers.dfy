/** The two result types shared by the modules of the model. */
module Wrappers {
  datatype Option<+T> = None | Some(value: T)

  /** A returned value, or the error the source returns in its place. */
  datatype Result<+T, +E> = Ok(value: T) | Err(error: E)
}
