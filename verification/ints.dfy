/**
 * The machine integer types of the ledger (`i64` balances, `u32` amounts,
 * `u64` timestamps) as ranges of the unbounded `int`, and the standard
 * library's overflow-checked signed arithmetic on `i64`.
 */
module Ints {
  import opened Wrappers

  const INT64_MIN: int := -0x8000_0000_0000_0000
  const INT64_MAX: int := 0x7FFF_FFFF_FFFF_FFFF
  const UINT32_MAX: int := 0xFFFF_FFFF
  const UINT64_MAX: int := 0xFFFF_FFFF_FFFF_FFFF

  /** True iff `x` is representable as a signed 64-bit integer. */
  predicate InInt64(x: int) {
    INT64_MIN <= x <= INT64_MAX
  }

  type int64 = x: int | InInt64(x)
  type uint32 = x: int | 0 <= x <= UINT32_MAX
  type uint64 = x: int | 0 <= x <= UINT64_MAX

  /** `i64::checked_add`: the exact sum, or `None` when it leaves the `i64` range. */
  function CheckedAdd(x: int64, y: int64): Option<int64> {
    if InInt64(x + y) then Some(x + y) else None
  }

  /** `i64::checked_sub`: the exact difference, or `None` when it leaves the `i64` range. */
  function CheckedSub(x: int64, y: int64): Option<int64> {
    if InInt64(x - y) then Some(x - y) else None
  }
}
