/** The absent-or-present wrapper shared by every module. */
module Optional {
  datatype Option<T> = None | Some(value: T)
}
