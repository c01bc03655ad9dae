/** The optional-value datatype used where the TypeScript code returns `null`. */
module Wrappers {

  datatype Option<+T> = None | Some(value: T)

}
