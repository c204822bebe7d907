/** Small value helpers shared by the other modules. */
module Util {

  datatype Option<+T> = None | Some(value: T)

  function Min(a: int, b: int): int
  {
    if a <= b then a else b
  }

  /** JavaScript truthiness of a value read as `state?.data?.isRecording`:
      a missing value (None) and `false` are both falsy. */
  predicate Truthy(b: Option<bool>)
  {
    b == Some(true)
  }
}
