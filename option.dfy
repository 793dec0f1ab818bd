/** JavaScript's `undefined`/`null` for optional values and lookups that can fail. */
module Options {
  datatype Option<T> = None | Some(value: T)
}
