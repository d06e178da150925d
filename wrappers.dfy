/** Optional values: a JavaScript property that may be missing, a lookup that may fail. */
module Wrappers {

  datatype Option<+T> = None | Some(value: T)
}
