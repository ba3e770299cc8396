/** An optional value: the model's stand-in for `null`/`undefined` and for an absent stored item. */
module Wrappers {
  datatype Option<+T> = None | Some(value: T)
}
