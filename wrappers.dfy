/** Optional values, used for the touch tracking points that may be `undefined`. */
module Wrappers {

  datatype Option<T> = None | Some(value: T)
}
