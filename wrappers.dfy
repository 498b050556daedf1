/** Optional values, used where the drawing board holds "null or a value". */
module Wrappers {

  datatype Option<+T> = None | Some(value: T)
}
