/** Machine integers and the option type shared by every module. */
module Types {
  datatype Option<+T> = None | Some(value: T)

  const TWO_31: int := 0x8000_0000
  const TWO_32: int := 0x1_0000_0000

  type byte = x: int | 0 <= x < 0x100
  type u16 = x: int | 0 <= x < 0x1_0000
  type u32 = x: int | 0 <= x < 0x1_0000_0000

  function Min(a: int, b: int): int {
    if a <= b then a else b
  }

  function Max(a: int, b: int): int {
    if a >= b then a else b
  }

  /** `u64::saturating_sub` on the clock. */
  function SatSub(a: int, b: int): nat {
    if a >= b then a - b else 0
  }

  /** `u32::saturating_add`. */
  function SatAdd32(a: u32, b: u32): u32 {
    if a + b < TWO_32 then a + b else TWO_32 - 1
  }

  /** The low 32 bits of a clock value (`now_ms as u32`). */
  function Low32(n: nat): u32 {
    n % TWO_32
  }
}
