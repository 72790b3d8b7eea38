/** 64-bit signed integers, as Go's int and int64 compute with them. */
module Machine {
  const INT64_MAX := 0x7FFF_FFFF_FFFF_FFFF

  predicate FitsInt64(x: int) {
    -INT64_MAX - 1 <= x <= INT64_MAX
  }

  type Int64 = x: int | FitsInt64(x)

  /** Two's complement wrap-around of a 64-bit result. */
  function Wrap64(x: int): int {
    (x + INT64_MAX + 1) % (2 * (INT64_MAX + 1)) - INT64_MAX - 1
  }
}
