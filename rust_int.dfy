/**
 * Rust's fixed-width integer semantics, where the model needs them.
 * Dafny's `/` and `%` are Euclidean; Rust's truncate toward zero.
 */
module RustInt {

  const I8_MIN: int := -128
  const I8_MAX: int := 127

  /** Rust's `i8`. */
  type I8 = v: int | I8_MIN <= v <= I8_MAX

  const U32_MAX: int := 0xffff_ffff

  /** Rust's `u32`. */
  type U32 = v: int | 0 <= v <= U32_MAX

  predicate InI8(v: int) {
    I8_MIN <= v <= I8_MAX
  }

  function Abs(v: int): nat {
    if v < 0 then -v else v
  }

  /** Rust's `a / b` for a positive divisor: the quotient is truncated toward zero. */
  function Quot(a: int, b: int): int
    requires b > 0
  {
    if a >= 0 then a / b else -((-a) / b)
  }

  /** Rust's `a % b` for a positive divisor: the remainder takes the sign of `a`. */
  function Rem(a: int, b: int): (r: int)
    requires b > 0
    ensures b * Quot(a, b) + r == a
    ensures a >= 0 ==> 0 <= r < b
    ensures a < 0 ==> -b < r <= 0
  {
    if a >= 0 then a % b else -((-a) % b)
  }
}
