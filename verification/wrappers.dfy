/** Optional values, used where the controller may or may not produce a result. */
module Wrappers {

  datatype Option<+T> = None | Some(value: T)
}
