/** The optional value that stands for a nil pointer or an absent field. */
module Options {
  datatype Option<+T> = None | Some(value: T)
}
