/** Optional values, for effects that a handler may or may not produce. */
module Wrappers {

  datatype Option<+T> = None | Some(value: T)
}
