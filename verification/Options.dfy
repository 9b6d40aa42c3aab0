/** The absent-or-present value used for Go's nillable fields. */
module Options {
  datatype Option<+T> = None | Some(value: T)
}
