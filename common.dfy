/** Small value types shared by the callback models. */
module Common {

  /** A value that may be absent; stands for Python's `None`. */
  datatype Option<T> = None | Some(value: T)

  /** The outcome of an operation that the source ends with `raise` on failure. */
  datatype Result<T, E> = Success(value: T) | Failure(error: E)

  function Min(a: int, b: int): int
  {
    if a <= b then a else b
  }
}
