/** Optional values: `None` stands for JavaScript's `null` (or an absent value). */
module Wrappers {

  datatype Option<+T> = None | Some(value: T)
}
