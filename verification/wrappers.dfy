/** The optional-value type used wherever the modelled code may find nothing
    (a missing table row, an unregistered asset) or may fail to produce a value. */
module Wrappers {

  datatype Option<+T> = None | Some(value: T)
}
