/** The optional-value wrapper shared by the retry modules. */
module Options {

  /** A value that may be absent (Python's `None`). */
  datatype Option<+T> = None | Some(value: T)
}
