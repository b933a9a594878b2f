/**
 * Fixed-width integers of the .NET runtime, as ranges of unbounded integers,
 * and the two integer operators whose .NET meaning differs from Dafny's.
 */
module Numerics {
  type byte = x: int | 0 <= x < 0x100
  type u16 = x: int | 0 <= x < 0x1_0000
  type u32 = x: int | 0 <= x < 0x1_0000_0000
  type u64 = x: int | 0 <= x < 0x1_0000_0000_0000_0000
  type i64 = x: int | -0x8000_0000_0000_0000 <= x < 0x8000_0000_0000_0000
  /** A size or rate that must not be zero, such as a buffer size or a clock frequency. */
  type Positive = n: int | n > 0 witness 1

  const U64Modulus: int := 0x1_0000_0000_0000_0000

  /** `ulong` subtraction in unchecked C#: the difference wraps modulo 2^64. */
  function SubU64(a: u64, b: u64): (r: u64)
    ensures b <= a ==> r == a - b
    ensures a < b ==> r == U64Modulus - (b - a)
  {
    (a - b) % U64Modulus
  }

  /** The running-maximum update `if (b > a) a = b;`. */
  function Max(a: int, b: int): (r: int)
    ensures a <= r && b <= r && (r == a || r == b)
  {
    if b > a then b else a
  }

  function MaxReal(a: real, b: real): (r: real)
    ensures a <= r && b <= r && (r == a || r == b)
  {
    if b > a then b else a
  }

  function Abs(x: int): (r: nat)
    ensures r == x || r == -x
  {
    if x < 0 then -x else x
  }

  /** The quotient of a Euclidean division of naturals brackets the dividend. */
  lemma QuotientBounds(n: nat, d: nat)
    requires d > 0
    ensures 0 <= n / d && (n / d) * d <= n < (n / d) * d + d
  {
    var q, r := n / d, n % d;
    assert n == q * d + r && 0 <= r < d;
  }

  /** The truncating quotient, case by case, against its characterisation. */
  lemma TruncatedQuotient(a: int, b: int, q: int)
    requires b != 0
    requires q == if 0 < b then (if 0 <= a then a / b else -((-a) / b))
                  else (if 0 <= a then -(a / (-b)) else (-a) / (-b))
    ensures Abs(q * b) <= Abs(a) < Abs(q * b) + Abs(b)
    ensures q * b == 0 || (q * b < 0 <==> a < 0)
  {
    var n: nat, d: nat := Abs(a), Abs(b);
    var nd: int := -(d as int);
    QuotientBounds(n, d);
    var m := n / d;
    var p := m * d;
    if 0 < b && 0 <= a {
      assert q == m && q * b == p;
    } else if 0 < b {
      assert q == -m && q * b == -p;
    } else if 0 <= a {
      assert q == -m && q * b == (-m) * nd == p;
    } else {
      assert q == m && q * b == m * nd == -p;
    }
  }

  /**
   * C# integer division, which truncates toward zero (Dafny's `/` is
   * Euclidean): the product of quotient and divisor is the largest multiple
   * of the divisor no farther from zero than the dividend, on the dividend's
   * side of zero. It throws DivideByZeroException when `b == 0`, which the
   * caller models.
   */
  function TruncDiv(a: int, b: int): (q: int)
    requires b != 0
    ensures Abs(q * b) <= Abs(a) < Abs(q * b) + Abs(b)
    ensures q * b == 0 || (q * b < 0 <==> a < 0)
  {
    var q := if 0 < b then (if 0 <= a then a / b else -((-a) / b))
             else (if 0 <= a then -(a / (-b)) else (-a) / (-b));
    TruncatedQuotient(a, b, q);
    q
  }

  /** Truncation toward zero for each sign combination, where it differs from Euclidean division. */
  lemma TruncDivExamples()
    ensures TruncDiv(7, 2) == 3 && TruncDiv(-7, 2) == -3
    ensures TruncDiv(7, -2) == -3 && TruncDiv(-7, -2) == 3
    ensures TruncDiv(-999, 1000) == 0 && TruncDiv(-1000, 1000) == -1
  {
  }
}
