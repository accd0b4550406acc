/** Python's `None`-or-value, as used for dictionary lookups and optional ids. */
module Wrappers {
  datatype Option<+T> = None | Some(value: T)
}
