/** The optional value the pages express with `undefined`. */
module Options {
  datatype Option<T> = None | Some(value: T)
}
