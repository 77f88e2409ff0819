/** Small shared datatypes. */
module Common {

  /** A value that may be absent: a missing file, a cache miss. */
  datatype Option<T> = None | Some(value: T)

  function Min(a: int, b: int): int {
    if a <= b then a else b
  }
}
