/** Option, as the source's Optional fields and nullable columns use it. */
module Wrappers {
  datatype Option<+T> = None | Some(value: T)
}
