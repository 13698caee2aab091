/** A value that may be absent, such as a NULL pointer. */
module Options {

  datatype Option<T> = None | Some(value: T)
}
