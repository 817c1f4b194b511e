/** A value that may be missing. */
module Wrappers {
  datatype Maybe<T> = Nothing | Just(value: T)
}
