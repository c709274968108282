/** The optional value used for `None` in the modelled Python. */
module Options {
  datatype Option<+T> = None | Some(value: T)
}
