/** The optional-value wrapper the model uses for message fields that may be left unset. */
module Wrappers {

  datatype Option<+T> = None | Some(value: T)
}
