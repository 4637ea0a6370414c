/** Nullable values: a Java `Integer` slot is either `null` (None) or holds an int. */
module Wrappers {

  datatype Option<+T> = None | Some(value: T)
}
