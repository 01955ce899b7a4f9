/** The optional-value datatype used for Python's `Optional[...]` and for
    lookups that can raise `KeyError`. */
module Wrappers {

  datatype Option<+T> = None | Some(value: T)
}
