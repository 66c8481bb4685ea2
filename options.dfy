/** The optional value used for JavaScript's `null`/`undefined` and for absent object keys. */
module Options {
  datatype Option<+T> = None | Some(value: T)
}
