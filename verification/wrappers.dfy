/** Optional values: a field or argument that JavaScript leaves `undefined`. */
module Wrappers {
  datatype Option<+T> = None | Some(value: T)
}
