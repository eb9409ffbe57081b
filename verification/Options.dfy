/** Optional values: nil references and absent settings. */
module Options {
  datatype Option<T> = None | Some(value: T)
}
