/** An optional value: the model's stand-in for a TypeScript `T | undefined`. */
module Wrappers {

  datatype Option<T> = None | Some(value: T)
}
