/**
 * Machine integers of the C# source: bytes, the wrap-around of unchecked
 * casts and additions, and C#'s truncating division and remainder.
 */
module Ints {

  type byte = b: int | 0 <= b < 256

  const TWO_31: int := 0x8000_0000
  const TWO_32: int := 0x1_0000_0000
  const TWO_63: int := 0x8000_0000_0000_0000
  const TWO_64: int := 0x1_0000_0000_0000_0000

  predicate IsUInt(x: int) { 0 <= x < TWO_32 }
  predicate IsInt(x: int) { -TWO_31 <= x < TWO_31 }
  predicate IsLong(x: int) { -TWO_63 <= x < TWO_63 }
  predicate IsULong(x: int) { 0 <= x < TWO_64 }

  /** The C# `int`, `uint`, `long` and `ulong` value ranges as types. */
  type int32 = x: int | -TWO_31 <= x < TWO_31
  type uint32 = x: int | 0 <= x < TWO_32
  type int64 = x: int | -TWO_63 <= x < TWO_63
  type uint64 = x: int | 0 <= x < TWO_64

  /** An unchecked conversion or operation whose result is a `uint`. */
  function ToUInt(x: int): (r: int)
    ensures IsUInt(r)
    ensures IsUInt(x) ==> r == x
  {
    x % TWO_32
  }

  /** An unchecked conversion or operation whose result is an `ulong`. */
  function ToULong(x: int): (r: int)
    ensures IsULong(r)
    ensures IsULong(x) ==> r == x
  {
    x % TWO_64
  }

  /** An unchecked conversion or operation whose result is an `int`. */
  function ToInt(x: int): (r: int)
    ensures IsInt(r)
    ensures IsInt(x) ==> r == x
  {
    var m := x % TWO_32;
    if m >= TWO_31 then m - TWO_32 else m
  }

  /** An unchecked operation whose result is a `long`. */
  function ToLong(x: int): (r: int)
    ensures IsLong(r)
    ensures IsLong(x) ==> r == x
  {
    var m := x % TWO_64;
    if m >= TWO_63 then m - TWO_64 else m
  }

  /** Each unchecked result differs from the exact value by a multiple of the type's modulus. */
  lemma WrapIsCongruent(x: int)
    ensures (x - ToUInt(x)) % TWO_32 == 0 && (x - ToInt(x)) % TWO_32 == 0
    ensures (x - ToULong(x)) % TWO_64 == 0 && (x - ToLong(x)) % TWO_64 == 0
  {
  }

  /** C#'s `%` on signed integers: the remainder takes the sign of the dividend. */
  function CsRem(a: int, b: int): (r: int)
    requires b > 0
    ensures a >= 0 ==> r == a % b
    ensures a < 0 ==> -b < r <= 0
  {
    if a >= 0 then a % b else -((-a) % b)
  }

  /** C#'s `/` on signed integers: the quotient is truncated toward zero. */
  function CsDiv(a: int, b: int): (r: int)
    requires b > 0
    ensures a >= 0 ==> r == a / b
    ensures r * b + CsRem(a, b) == a
  {
    if a >= 0 then a / b else -((-a) / b)
  }
}

/** Facts about multiplication and division that the solver does not find unaided. */
module Arith {

  lemma MulSign(k: int, b: int)
    requires b > 0
    ensures k >= 1 ==> k * b >= b
    ensures k <= -1 ==> k * b <= -b
  {
    if k >= 1 {
      assert k * b - b == (k - 1) * b;
    } else if k <= -1 {
      assert k * b + b == (k + 1) * b;
    }
  }

  /** A product with a positive factor is smaller only when the other factor is. */
  lemma MulCancelLess(a: int, c: int, b: int)
    requires b > 0 && a * b < c * b
    ensures a < c
  {
    assert (c - a) * b == c * b - a * b;
    MulSign(c - a, b);
  }

  lemma MulDivCancel(a: int, b: int)
    requires b > 0
    ensures (a * b) / b == a && (a * b) % b == 0
  {
    var q, m := (a * b) / b, (a * b) % b;
    assert a * b == q * b + m && 0 <= m < b;
    assert (a - q) * b == a * b - q * b;
    MulSign(a - q, b);
  }

  lemma MulMonotone(a: int, b: int, c: int)
    requires 0 <= a <= b && c >= 0
    ensures a * c <= b * c
  {
    assert b * c - a * c == (b - a) * c;
  }

  lemma DivMulBelow(a: int, b: int)
    requires a >= 0 && b > 0
    ensures 0 <= (a / b) * b <= a
    ensures a < b * (a / b + 1)
  {
    assert a == (a / b) * b + a % b;
  }

  /** Two multiples of a positive `b` less than `b` apart are the same multiple. */
  lemma SameMultiple(a: int, k: int, b: int)
    requires b > 0 && k * b <= a * b < k * b + b
    ensures a == k
  {
    assert (k + 1) * b == k * b + b;
    assert (k - 1) * b == k * b - b;
    MulCancelLess(a, k + 1, b);
    MulCancelLess(k - 1, a, b);
  }

  /** The quotient of `a` is `k` when `a` lies in the `k`-th run of `b` values. */
  lemma DivBetween(a: int, b: int, k: int)
    requires b > 0 && k * b <= a < (k + 1) * b
    ensures a / b == k
  {
    var q := a / b;
    assert a == q * b + a % b;
    assert (q - k) * b == (a - k * b) - a % b;
    assert (k + 1) * b == k * b + b;
    MulSign(q - k, b);
  }
}
