/** A value that JavaScript would hold as `T | null | undefined`. */
module Options {

  datatype Option<+T> = None | Some(value: T)
}
