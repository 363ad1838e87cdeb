module Basics {
  datatype Option<+T> = None | Some(value: T)

  type byte = x: int | 0 <= x < 256

  function Bit(p: bool): int {
    if p then 1 else 0
  }
}
