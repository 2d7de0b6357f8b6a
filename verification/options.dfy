/** The optional value used for JavaScript's `null`/`undefined` states. */
module Options {
  datatype Option<+T> = None | Some(value: T)
}
