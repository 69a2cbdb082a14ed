/** The optional value used for nullable columns and for query parameters that may be absent. */
module Options {
  datatype Option<T> = None | Some(value: T)
}
