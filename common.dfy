/** Small value types shared by every module of the model. */
module Common {

  /** A value that may be absent (Python's `None`). */
  datatype Option<+T> = None | Some(value: T)

  /** A call into an external service that either answers or raises. */
  datatype Outcome<+T> = Answered(value: T) | Raised

  function Max(a: real, b: real): real
  {
    if a >= b then a else b
  }

  function Min(a: real, b: real): real
  {
    if a <= b then a else b
  }

  function Abs(x: real): real
  {
    if x >= 0.0 then x else -x
  }
}
