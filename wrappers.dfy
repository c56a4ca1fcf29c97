/** The optional value used wherever the system may have nothing (a null model, a failed call). */
module Wrappers {

  datatype Option<+T> = None | Some(value: T)
}
