/** A value that may be missing: the result of an action that may be refused. */
module Options {

  datatype Option<T> = None | Some(value: T)
}
