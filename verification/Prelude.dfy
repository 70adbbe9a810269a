/** The one wrapper type every module shares. */
module Prelude {
  datatype Option<+T> = None | Some(value: T)
}
