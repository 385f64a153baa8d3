/** Optional values: `None` stands for JavaScript's `undefined` wherever the handler reads a property that may be missing. */
module Wrappers {

  datatype Option<+T> = None | Some(value: T)
}
