/** A value that may be absent, shared by the registry store and the label reader. */
module Optional {

  datatype Option<T> = None | Some(value: T)
}
