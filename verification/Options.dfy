/** An optional value, as the status and spec fields of the custom resources carry. */
module Options {
  datatype Option<+T> = None | Some(value: T)
}
