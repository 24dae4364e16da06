/** The optional value that stands for a pointer or a lookup that may be absent. */
module Options {
  datatype Option<+T> = None | Some(value: T)
}
