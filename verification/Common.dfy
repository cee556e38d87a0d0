/** Types and small sequence facts shared by the models. */
module Common {

  /** A value that may be absent: a missing row, an unreadable header, a nil pointer. */
  datatype Option<+T> = None | Some(value: T)

  function Min(a: int, b: int): int {
    if a <= b then a else b
  }

  function Max(a: int, b: int): int {
    if a <= b then b else a
  }
}
