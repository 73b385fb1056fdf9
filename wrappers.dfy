/** The one optional-value type the model needs: JavaScript's `undefined` versus a value. */
module Wrappers {

  datatype Option<+T> = None | Some(value: T)
}
