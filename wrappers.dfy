/** An optional value: an answer that may be absent, or a call that may throw. */
module Wrappers {
  datatype Option<+T> = None | Some(value: T)
}
