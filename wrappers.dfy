/** Optional values: `undefined` versus a present value in the modelled code. */
module Wrappers {
  datatype Option<+T> = None | Some(value: T)
}
