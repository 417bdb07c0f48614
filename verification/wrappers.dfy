/** Optional values, used for "a fetch was issued or not". */
module Wrappers {

  datatype Option<+T> = None | Some(value: T)
}
