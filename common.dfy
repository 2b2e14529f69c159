/** Small shared vocabulary: optional values and the integer minimum. */
module Common {

  /** A value that may be absent: JavaScript's `null`/`undefined` for one type. */
  datatype Option<+T> = None | Some(value: T)

  function Min(a: int, b: int): int
  {
    if a <= b then a else b
  }
}
