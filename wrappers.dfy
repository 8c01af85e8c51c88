/** Small failure-compatible types shared by the modules of this model. */
module Wrappers {
  datatype Option<+T> = None | Some(value: T)

  /** The outcome of a check that either passes or stops the run with an error. */
  datatype Outcome<+E> = Pass | Fail(error: E)
}
