/** The optional value every other module uses where the source has null or None. */
module Options {
  datatype Option<+T> = None | Some(value: T)
}
