/** The optional value used wherever the source has `null`, `undefined` or a missing record. */
module Opt {
  datatype Option<+T> = None | Some(value: T)
}
