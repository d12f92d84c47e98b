/** Small datatypes shared by every module. */
module Std {
  datatype Option<+T> = None | Some(value: T)

  /** What a call into code outside the model does: it returns a value, or an
      exception with this text escapes from it. */
  datatype Reply<+T> = Returns(value: T) | Raises(error: string)

  predicate Yes(r: Reply<bool>) {
    r.Returns? && r.value
  }

  predicate No(r: Reply<bool>) {
    r.Returns? && !r.value
  }

  function Min(a: int, b: int): int {
    if a < b then a else b
  }
}
