/** The absent-or-present value that Python expresses with `None`. */
module Optional {
  datatype Option<+T> = None | Some(value: T)
}
