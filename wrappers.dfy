/** Optional values, for the parameters the source declares as `number | null` or leaves undefined. */
module Wrappers {
  datatype Option<+T> = None | Some(value: T)
}
