/** Types shared by every component: optional values, result codes and the
    fixed-width integers of the original program. */
module Common {
  datatype Option<+T> = None | Some(value: T)

  /** The two result codes the illumination subsystem ever returns. */
  datatype ResultCode = SUCCESS | GENERAL_ERROR

  const UINT32_MAX: nat := 0xFFFF_FFFF
  const TWO_TO_THE_32: nat := 0x1_0000_0000
  const TWO_TO_THE_64: nat := 0x1_0000_0000_0000_0000

  type uint32 = x: nat | x <= UINT32_MAX
  type int32 = x: int | -0x8000_0000 <= x < 0x8000_0000

  /** Passing a `uint32_t` where an `int32_t` is expected. */
  function ToInt32(x: uint32): int32 {
    if x < 0x8000_0000 then x else x - TWO_TO_THE_32
  }

  /** Passing an `int32_t` where a `uint32_t` is expected. */
  function ToUint32(x: int32): uint32 {
    if 0 <= x then x else x + TWO_TO_THE_32
  }

  /** The two conversions undo each other, and change a number by a multiple of 2^32. */
  lemma ConversionsInvert(x: uint32, y: int32)
    ensures ToUint32(ToInt32(x)) == x && ToInt32(ToUint32(y)) == y
    ensures ToInt32(x) == x || ToInt32(x) == x - 0x1_0000_0000
    ensures ToUint32(y) == y || ToUint32(y) == y + 0x1_0000_0000
  {
  }
}
