/** The conventional optional value, used for nullable pointers and failing lookups. */
module Options {
  datatype Option<+T> = None | Some(value: T)
}
