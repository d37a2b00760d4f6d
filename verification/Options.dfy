/** A value that may be absent: Python's `None` beside the value. */
module Options {

  datatype Option<+T> = None | Some(value: T)
}
