/** The optional values the model needs in place of TypeScript's `null` and `undefined`. */
module Wrappers {

  datatype Option<+T> = None | Some(value: T)
}
