/** An optional value, used where the source has `None` or an optional field. */
module Wrappers {
  datatype Option<+T> = None | Some(value: T)
}
