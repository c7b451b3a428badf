/** JavaScript's `null`-or-value, as a value type. */
module Options {

  datatype Option<+T> = None | Some(value: T)
}
