/** The optional value used where the source returns `undefined` or reads an absent form value. */
module Options {
  datatype Option<+T> = None | Some(value: T)
}
