/** Optional values, standing in for the host's nullable references. */
module Wrappers {

  datatype Option<+T> = None | Some(value: T)
}
