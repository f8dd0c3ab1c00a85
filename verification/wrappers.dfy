/** Failure-carrying wrappers shared by the other modules. */
module Wrappers {

  /** A value that may be absent; models Go's nil pointers and nil slices. */
  datatype Option<+T> = None | Some(value: T)

  /** The outcome of a step that can fail with an error of type E. */
  datatype Result<+T, +E> = Ok(value: T) | Fail(error: E)
}
