/** An optional value: a Python None, a Go nil pointer, a missing answer. */
module Options {
  datatype Option<+T> = None | Some(value: T)
}
