/** The absent-or-present value used wherever the C# code holds a null reference. */
module Wrappers {

  datatype Option<+T> = None | Some(value: T)
}
