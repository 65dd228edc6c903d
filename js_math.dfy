/** The JavaScript number operations the game relies on, in exact arithmetic:
    `Math.abs`, `Math.max`, `Math.round`, the `%` operator and the 32-bit integer
    conversion that the bitwise operators apply. */
module JsMath {

  function Abs(x: real): (r: real)
    ensures r >= 0.0 && (r == x || r == -x)
  {
    if x < 0.0 then -x else x
  }

  function MaxNat(a: nat, b: nat): (r: nat)
    ensures r >= a && r >= b && (r == a || r == b)
  {
    if a < b then b else a
  }

  /** `Math.round`: halves round up, toward positive infinity. */
  function Round(x: real): (r: int)
    ensures x - 0.5 < r as real <= x + 0.5
  {
    (x + 0.5).Floor
  }

  /** `Math.floor(r * n)`, the usual way to turn a Math.random value into an index. */
  function Scaled(r: real, n: int): int {
    (r * n as real).Floor
  }

  /** An output of Math.random, in [0, 1), scales to an index below n. */
  lemma ScaledRange(r: real, n: int)
    requires 0.0 <= r < 1.0 && n >= 1
    ensures 0 <= Scaled(r, n) < n
  {
    ProductNonNegative(r, n as real);
    assert r * n as real < n as real by {
      ProductPositive(1.0 - r, n as real);
    }
  }

  /** `x % d` on numbers: the remainder of the quotient truncated toward zero, so it
      takes the sign of `x`. A zero divisor gives NaN in JavaScript; 0 here. */
  function Remainder(x: real, d: real): real {
    if d == 0.0 then 0.0
    else
      var q := x / d;
      var t := if q >= 0.0 then q.Floor else -((-q).Floor);
      x - d * (t as real)
  }

  lemma ProductNonNegative(a: real, b: real)
    requires a >= 0.0 && b >= 0.0
    ensures a * b >= 0.0
  {
  }

  /** Scaling by a factor in [0, 1] stays between 0 and the value. */
  lemma ScaledBetween(f: real, d: real)
    requires 0.0 <= f <= 1.0
    ensures d >= 0.0 ==> 0.0 <= f * d <= d
    ensures d <= 0.0 ==> d <= f * d <= 0.0
  {
    assert f * d + (1.0 - f) * d == d;
    if d >= 0.0 {
      ProductNonNegative(f, d);
      ProductNonNegative(1.0 - f, d);
    } else {
      ProductNonNegative(f, -d);
      ProductNonNegative(1.0 - f, -d);
    }
  }

  /** For a non-negative number and a positive divisor, the remainder lies in [0, d),
      and a number already below the divisor is its own remainder. */
  lemma RemainderBounds(x: real, d: real)
    requires 0.0 <= x && 0.0 < d
    ensures 0.0 <= Remainder(x, d) < d
    ensures x < d ==> Remainder(x, d) == x
  {
    RemainderInRange(x, d);
    if x < d {
      RemainderBelowDivisor(x, d);
    }
  }

  lemma RemainderInRange(x: real, d: real)
    requires 0.0 <= x && 0.0 < d
    ensures 0.0 <= Remainder(x, d) < d
  {
    var q := x / d;
    assert d * q == x;
    assert q >= 0.0;
    var t := q.Floor as real;
    assert Remainder(x, d) == x - d * t;
    var f := q - t;
    assert 0.0 <= f < 1.0;
    ProductNonNegative(d, f);
    ProductPositive(d, 1.0 - f);
    var u, v := d * f, d * (1.0 - f);
    assert x - d * t == u;
    assert u + v == d;
  }

  lemma ProductPositive(a: real, b: real)
    requires a > 0.0 && b > 0.0
    ensures a * b > 0.0
  {
  }

  lemma QuotientBelowOne(x: real, d: real)
    requires 0.0 <= x < d
    ensures 0.0 <= x / d < 1.0 && (x / d).Floor == 0
  {
  }

  lemma RemainderBelowDivisor(x: real, d: real)
    requires 0.0 <= x < d
    ensures Remainder(x, d) == x
  {
    QuotientBelowOne(x, d);
  }

  /** On integers, the remainder is the integer remainder. */
  lemma RemainderOfIntegers(k: int, m: int)
    requires k >= 0 && m > 0
    ensures Remainder(k as real, m as real) == (k % m) as real
  {
    var q := k / m;
    var r := k % m;
    assert k == q * m + r && 0 <= r < m;
    var x := k as real / m as real;
    assert x == q as real + r as real / m as real;
    QuotientBelowOne(r as real, m as real);
    assert x.Floor == q;
  }

  const TWO_32: int := 0x1_0000_0000
  const TWO_31: int := 0x8000_0000

  /** ToInt32: the value modulo 2^32, read as a signed 32-bit integer. */
  function ToInt32(x: int): (r: int)
    ensures -TWO_31 <= r < TWO_31
    ensures r % TWO_32 == x % TWO_32
  {
    var m := x % TWO_32;
    if m >= TWO_31 then m - TWO_32 else m
  }

  /** A signed 32-bit integer is its own ToInt32. */
  lemma ToInt32Identity(x: int)
    requires -TWO_31 <= x < TWO_31
    ensures ToInt32(x) == x
  {
  }

  lemma CongruentAdd(a: int, b: int, k: int)
    requires a % TWO_32 == b % TWO_32
    ensures (a + k) % TWO_32 == (b + k) % TWO_32
  {
  }

  lemma CongruentScale(a: int, b: int, k: int)
    requires a % TWO_32 == b % TWO_32
    ensures (k * a) % TWO_32 == (k * b) % TWO_32
  {
    var q := (a - b) / TWO_32;
    assert a - b == q * TWO_32;
    var z := k * q;
    assert k * a == k * b + z * TWO_32 by {
      assert k * (a - b) == k * (q * TWO_32);
    }
    ModShift(k * b, z);
  }

  /** Adding a multiple of 2^32 does not change the remainder. */
  lemma ModShift(y: int, z: int)
    ensures (y + z * TWO_32) % TWO_32 == y % TWO_32
  {
    var r, s := y % TWO_32, y / TWO_32;
    assert y == s * TWO_32 + r && 0 <= r < TWO_32;
    assert y + z * TWO_32 == (s + z) * TWO_32 + r;
  }
}
