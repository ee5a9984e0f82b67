/** The optional value used for absent headers and unset configuration options. */
module Options {
  datatype Option<+T> = None | Some(value: T)
}
