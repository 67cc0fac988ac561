/** The optional-value type used for parsers that may reject their input and
    for registry lookups that may miss. */
module Wrappers {

  datatype Option<+T> = None | Some(value: T)
}
