/** Failure-carrying values shared by the decoder and the presentation step.
    The error kinds are the Python exceptions the decoder can raise. */
module Wrappers {

  datatype Option<+T> = None | Some(value: T)

  /** An `assert` that fails, an index past the end of a list, or a missing dictionary key. */
  datatype Error = AssertionFailed | IndexError | KeyError

  datatype Result<+T> = Ok(value: T) | Err(error: Error)
}
