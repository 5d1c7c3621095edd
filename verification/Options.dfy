/** An optional value, standing for Python's `None` where the source tests for it. */
module Options {
  datatype Option<+T> = None | Some(value: T)
}
