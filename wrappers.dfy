/** Python's `None`-or-value, used for the optional sinks and caches of the session. */
module Wrappers {
  datatype Option<+T> = None | Some(value: T)
}
