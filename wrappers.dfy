/** Optional values: the driver's `None` arguments and "not found" results. */
module Wrappers {

  datatype Option<+T> = None | Some(value: T)
}
