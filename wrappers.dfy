/** Python's `Optional[T]`: either nothing or a value. */
module Wrappers {

  datatype Option<+T> = None | Some(value: T)
}
