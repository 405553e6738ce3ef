/** The fixed-width integers of the client, as ranges of the unbounded ones. */
module MachineInts {
  const U32_MAX := 0xFFFF_FFFF
  const U64_MAX := 0xFFFF_FFFF_FFFF_FFFF
  const I64_MAX := 0x7FFF_FFFF_FFFF_FFFF
  const I64_MIN := -0x8000_0000_0000_0000

  type u32 = x: int | 0 <= x <= U32_MAX
  type u64 = x: int | 0 <= x <= U64_MAX
  type i64 = x: int | I64_MIN <= x <= I64_MAX
  type byte = x: int | 0 <= x < 256

  /** Two's complement addition: what an overflowing `+ 1` leaves in a release build. */
  function WrapU32(x: int): u32 {
    x % 0x1_0000_0000
  }

  function WrapU64(x: int): u64 {
    x % 0x1_0000_0000_0000_0000
  }

  function WrappingNegU64(x: u64): u64 {
    WrapU64(0 - x as int)
  }

  function WrapI64(x: int): i64 {
    (x + 0x8000_0000_0000_0000) % 0x1_0000_0000_0000_0000 - 0x8000_0000_0000_0000
  }

  lemma WrapZero()
    ensures WrapU32(0) == 0 && WrapI64(0) == 0
  {
  }

  /** Wrapping before adding changes nothing. */
  lemma WrapU32Successor(n: int)
    ensures WrapU32(WrapU32(n) + 1) == WrapU32(n + 1)
  {
  }

  lemma WrapI64Successor(n: int)
    ensures WrapI64(WrapI64(n) + 1) == WrapI64(n + 1)
  {
  }
}
