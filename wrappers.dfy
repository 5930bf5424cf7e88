/** The optional value used wherever the source has `null`, `undefined` or an optional field. */
module Wrappers {

  datatype Option<+T> = None | Some(value: T)
}
