/** Small shared vocabulary: an optional value and the fixed-width integer ranges of the source. */
module Common {

  datatype Option<+T> = None | Some(value: T)

  const TWO_32: int := 0x1_0000_0000

  /** Rust's `u32`, `i32` and `u64` as ranges of unbounded integers. */
  type u32 = x: int | 0 <= x < 0x1_0000_0000
  type i32 = x: int | -0x8000_0000 <= x < 0x8000_0000
  type u64 = x: int | 0 <= x < 0x1_0000_0000_0000_0000

  /** An `as u32` cast: keeps the low 32 bits (two's complement for negatives). */
  function AsU32(x: int): (r: u32)
    ensures 0 <= x < TWO_32 ==> r == x
    ensures (r - x) % TWO_32 == 0
  {
    x % TWO_32
  }

  /** Rust's integer `/`, which truncates toward zero (Dafny's `/` is Euclidean). */
  function TruncDiv(a: int, b: int): (r: int)
    requires b > 0
    ensures a >= 0 ==> r == a / b
    ensures a < 0 ==> r == -((-a) / b)
  {
    if a >= 0 then a / b else -((-a) / b)
  }

  /** Halving, the one division the model performs, rounds toward zero: the
      half never has the opposite sign, and twice it is within one of `a`
      on the side of zero. */
  lemma TruncHalfRoundsTowardZero(a: int)
    ensures 0 <= a ==> 0 <= TruncDiv(a, 2) && a - 1 <= 2 * TruncDiv(a, 2) <= a
    ensures a < 0 ==> TruncDiv(a, 2) <= 0 && a <= 2 * TruncDiv(a, 2) <= a + 1
  {
  }
}
