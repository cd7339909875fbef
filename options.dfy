/** Small failure-compatible wrappers shared by the callback modules. */
module Options {

  /** A value that may be absent: Python's `None` versus a present value. */
  datatype Option<+T> = None | Some(value: T)

  /** The outcome of a step that either completes or raises an error. */
  datatype Outcome<+E> = Pass | Fail(error: E)
}
