/** Wrapping 32-bit sequence numbers (src/seq.rs) and their bridge to integers. */
module SeqNum {
  import opened Types

  function Add(a: u32, n: u32): u32 {
    if a + n < TWO_32 then a + n else a + n - TWO_32
  }

  function Sub(a: u32, b: u32): u32 {
    if a >= b then a - b else a - b + TWO_32
  }

  /** Bit 31 of the wrapping difference is set. */
  predicate Before(a: u32, b: u32) {
    Sub(a, b) >= TWO_31
  }

  predicate After(a: u32, b: u32) {
    Before(b, a)
  }

  predicate Between(start: u32, x: u32, end: u32) {
    After(x, start) && !After(x, end)
  }

  /** Where `x` sits when the circle is cut open at `base`. */
  function Off(base: u32, x: u32): u32 {
    Sub(x, base)
  }

  /** The bit test of the source is the arithmetic test of `Before`. */
  lemma SignBit(d: bv32)
    ensures (d & 0x8000_0000 != 0) <==> d >= 0x8000_0000
  {
  }

  /** The wrapping difference is the integer difference modulo 2^32. */
  lemma SubIsModular(a: u32, b: u32)
    ensures Sub(a, b) == (a - b) % TWO_32
    ensures Add(a, b) == (a + b) % TWO_32
  {
  }

  /** For integers x and y (any distance apart), the wrapped test says "before" exactly when
      x - y, reduced to a half-open window of width 2^32 around 0, is negative. Hence it agrees
      with x < y exactly on the distances -2^31 <= x - y < 2^31. */
  lemma BeforeIsLess(x: int, y: int)
    ensures Before(x % TWO_32, y % TWO_32) <==> (x - y) % TWO_32 >= TWO_31
    ensures -TWO_31 <= x - y < TWO_31 ==> (Before(x % TWO_32, y % TWO_32) <==> x < y)
    ensures -TWO_32 <= x - y < TWO_32 ==>
              ((Before(x % TWO_32, y % TWO_32) <==> x < y) <==> -TWO_31 <= x - y < TWO_31)
  {
    SubIsModular(x % TWO_32, y % TWO_32);
    ModDifference(x, y);
  }

  lemma ModDifference(x: int, y: int)
    ensures (x % TWO_32 - y % TWO_32) % TWO_32 == (x - y) % TWO_32
  {
    var q := x / TWO_32 - y / TWO_32;
    assert x - y == q * TWO_32 + (x % TWO_32 - y % TWO_32);
    ModShift(x % TWO_32 - y % TWO_32, q);
  }

  lemma ModShift(r: int, q: int)
    ensures (r + q * TWO_32) % TWO_32 == r % TWO_32
  {
  }

  /** Two sequence numbers less than 2^31 past the same base compare as their offsets do. */
  lemma BeforeOff(base: u32, a: u32, b: u32)
    requires Off(base, a) < TWO_31 && Off(base, b) < TWO_31
    ensures Before(a, b) <==> Off(base, a) < Off(base, b)
    ensures After(a, b) <==> Off(base, a) > Off(base, b)
    ensures Sub(a, b) == if Off(base, a) >= Off(base, b) then Off(base, a) - Off(base, b)
                         else Off(base, a) - Off(base, b) + TWO_32
    ensures a == b <==> Off(base, a) == Off(base, b)
  {
  }

  /** An offset names its number. */
  lemma OffInjective(base: u32, a: u32, b: u32)
    requires Off(base, a) == Off(base, b)
    ensures a == b
  {
  }

  /** The wrapping difference is the distance of the offsets. */
  lemma OffDistance(base: u32, a: u32, b: u32)
    requires Off(base, a) <= Off(base, b)
    ensures Sub(b, a) == Off(base, b) - Off(base, a)
  {
  }

  /** Advancing by n moves the offset by n while it stays on the circle. */
  lemma AddOff(base: u32, a: u32, n: u32)
    requires Off(base, a) + n < TWO_32
    ensures Off(base, Add(a, n)) == Off(base, a) + n
  {
  }

  /** `between` is the half-open interval test of section 3.4 of RFC 9293 on offsets. */
  lemma BetweenOff(base: u32, start: u32, x: u32, end: u32)
    requires Off(base, start) < TWO_31 && Off(base, x) < TWO_31 && Off(base, end) < TWO_31
    ensures Between(start, x, end) <==> Off(base, start) < Off(base, x) <= Off(base, end)
  {
    BeforeOff(base, start, x);
    BeforeOff(base, end, x);
  }
}
