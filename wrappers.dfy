/** Optional values: a JavaScript `null` or a missing property becomes `None`. */
module Wrappers {
  datatype Option<+T> = None | Some(value: T)
}
