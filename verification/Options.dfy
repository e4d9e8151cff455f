/** The optional value used throughout, for nullable columns and results that may be absent. */
module Options {
  datatype Option<+T> = None | Some(value: T)
}
