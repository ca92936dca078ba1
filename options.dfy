/** An optional value: the `undefined` of a missing field or of a failed `find`. */
module Options {

  datatype Option<T> = None | Some(value: T)
}
