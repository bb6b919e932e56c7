/** The optional value used wherever the source returns `null`/`undefined` or a lookup may miss. */
module Options {
  datatype Option<+T> = None | Some(value: T)
}
