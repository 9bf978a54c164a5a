/** The optional value used by lookups that may find nothing. */
module Options {
  datatype Option<T> = None | Some(value: T)
}
