// Optional values, used for lookups that may find nothing and for
// Python's `None`-or-value results.
module Wrappers {

  datatype Option<+T> = None | Some(value: T)

}
