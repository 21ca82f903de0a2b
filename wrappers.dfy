/** The optional-value datatype used for the configuration's optional knobs. */
module Wrappers {

  datatype Option<+T> = None | Some(value: T)
}
