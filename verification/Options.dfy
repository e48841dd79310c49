/** The conventional optional value, used in place of a null pointer. */
module Options {
  datatype Option<+T> = None | Some(value: T)
}
