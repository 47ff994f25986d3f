/** The optional value: Python's None, or an exception where only "it raises" matters. */
module Options {
  datatype Option<+T> = None | Some(value: T)
}
