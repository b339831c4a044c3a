/**
 Integer helpers the enhancement arithmetic is written with: NumPy's
 `np.sign`, `np.abs`, `np.clip` and `np.right_shift(x, 8)` on signed
 integers.
 */
module FixedPoint {

  /** `np.abs` on an integer. */
  function Abs(x: int): (r: nat)
    ensures r == x || r == -x
  {
    if x < 0 then -x else x
  }

  /** `np.sign` on an integer: -1, 0 or 1. */
  function Sign(x: int): (r: int)
    ensures -1 <= r <= 1
    ensures r == 0 <==> x == 0
    ensures r * x >= 0
  {
    if x < 0 then -1 else if x == 0 then 0 else 1
  }

  /** Splitting a value into sign and magnitude loses nothing. */
  lemma SignMagnitude(x: int)
    ensures Sign(x) * Abs(x) == x
  {
  }

  /** `np.clip(x, lo, hi)` for a non-empty range. */
  function Clip(x: int, lo: int, hi: int): (r: int)
    requires lo <= hi
    ensures lo <= r <= hi
    ensures lo <= x <= hi ==> r == x
    ensures x < lo ==> r == lo
    ensures hi < x ==> r == hi
  {
    if x < lo then lo else if hi < x then hi else x
  }

  /** The smaller of two integers. */
  function Min(x: int, y: int): (r: int)
    ensures r <= x && r <= y
    ensures r == x || r == y
  {
    if x <= y then x else y
  }

  /** Clipping to a fixed range never reverses the order of two values. */
  lemma ClipMonotone(x: int, y: int, lo: int, hi: int)
    requires lo <= hi && x <= y
    ensures Clip(x, lo, hi) <= Clip(y, lo, hi)
  {
  }

  /**
   `np.right_shift(x, 8)` on a signed integer: an arithmetic shift, which
   rounds toward minus infinity. Dafny's `/` by a positive divisor is
   Euclidean and therefore a floor here.
   */
  function ShiftRight8(x: int): (r: int)
    ensures r * 256 <= x < r * 256 + 256
  {
    x / 256
  }

  /** The shift never reverses the order of two values. */
  lemma ShiftRight8Monotone(x: int, y: int)
    requires x <= y
    ensures ShiftRight8(x) <= ShiftRight8(y)
  {
  }

  /**
   The shift is a floor, not a truncation toward zero: a small negative
   value shifts to -1, where a truncating division would give 0.
   */
  lemma ShiftRight8FloorsNegatives()
    ensures ShiftRight8(-1) == -1
    ensures ShiftRight8(-255) == -1
    ensures ShiftRight8(-257) == -2
    ensures ShiftRight8(1536) == 6
  {
  }
}
