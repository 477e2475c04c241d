/** Types every other module uses. */
module Prelude {
  datatype Option<+T> = None | Some(value: T)

  datatype Result<+T, +E> = Ok(value: T) | Err(error: E)

  type byte = x: int | 0 <= x < 256

  const MAX_INT64: int := 0x7FFF_FFFF_FFFF_FFFF

  const TWO_64: int := 0x1_0000_0000_0000_0000

  predicate IsInt64(x: int) {
    -MAX_INT64 - 1 <= x <= MAX_INT64
  }

  /** Two's complement wrap-around of Go's int64 arithmetic. */
  function Wrap64(x: int): (r: int)
    ensures IsInt64(r)
    ensures (r - x) % TWO_64 == 0
    ensures IsInt64(x) ==> r == x
  {
    var low := x % TWO_64;
    if low > MAX_INT64 then low - TWO_64 else low
  }

  function Max(a: int, b: int): int {
    if a < b then b else a
  }
}
