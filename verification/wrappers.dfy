/** The optional result a calculator memo returns: `null` becomes `None`. */
module Wrappers {

  datatype Option<+T> = None | Some(value: T)
}
