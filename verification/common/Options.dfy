/** The optional value used where the sources have nil, undefined, 0-as-absent or None. */
module Options {
  datatype Option<+T> = None | Some(value: T)
}
