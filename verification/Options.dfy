/** The optional value the modules share: JavaScript's absent or null result. */
module Options {
  datatype Option<+T> = None | Some(value: T)
}
