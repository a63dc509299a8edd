/** Optional values: `null`/`undefined` in the modelled code become `None`. */
module Wrappers {
  datatype Option<+T> = None | Some(value: T)
}
