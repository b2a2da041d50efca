/** The optional value used for the source's `null` and absent entries. */
module Optional {
  datatype Option<+T> = None | Some(value: T)
}
