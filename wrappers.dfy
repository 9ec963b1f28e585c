/** An optional value: the source's `number | undefined`. */
module Wrappers {
  datatype Option<+T> = None | Some(value: T)
}
