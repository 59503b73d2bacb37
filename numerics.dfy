/** The floating-point library calls the catalogue makes. `fmod` and `abs` are given exact
    real definitions; `pow`, `sqrt` and the transcendental functions are calls into the
    platform's maths library, so they are parameters: a `Libm` value supplies them. */
module Numerics {

  /** PHP's `pow`, `sqrt`, `sin`, `cos`, `tan`, `log10` and `log`, as total functions on reals. */
  datatype Libm = Libm(
    pow: (real, real) -> real,
    sqrt: real -> real,
    sin: real -> real,
    cos: real -> real,
    tan: real -> real,
    log10: real -> real,
    ln: real -> real)

  /** PHP's `abs` on a float. */
  function Abs(x: real): (r: real)
    ensures r >= 0.0 && (r == x || r == -x)
  {
    if x < 0.0 then -x else x
  }

  /** Rounding toward zero. */
  function Trunc(q: real): (t: int)
    ensures q >= 0.0 ==> 0.0 <= t as real <= q < t as real + 1.0
    ensures q < 0.0 ==> t as real - 1.0 < q <= t as real <= 0.0
  {
    if q >= 0.0 then q.Floor else -((-q).Floor)
  }

  /** C's `fmod`: the remainder of `x / y` with the quotient truncated toward zero.
      It is smaller than the divisor in magnitude and takes the dividend's sign. */
  function Fmod(x: real, y: real): (r: real)
    requires y != 0.0
    ensures Abs(r) < Abs(y)
    ensures r == 0.0 || (r < 0.0 <==> x < 0.0)
    ensures (x - r) / y == Trunc(x / y) as real
  {
    var t := Trunc(x / y) as real;
    FmodRemainder(x, y, t);
    x - t * y
  }

  lemma FmodRemainder(x: real, y: real, t: real)
    requires y != 0.0 && t == Trunc(x / y) as real
    ensures Abs(x - t * y) < Abs(y)
    ensures x - t * y == 0.0 || (x - t * y < 0.0 <==> x < 0.0)
    ensures (x - (x - t * y)) / y == t
  {
    var q := x / y;
    QuotientTimesDivisor(x, y);
    Distribute(y, q, t);
    assert x - t * y == y * (q - t);
    FmodBounds(q, t, y);
    assert x - (x - t * y) == t * y;
    QuotientTimesDivisor(t, y);
  }

  lemma QuotientTimesDivisor(x: real, y: real)
    requires y != 0.0
    ensures (x / y) * y == x
    ensures (x * y) / y == x
  {
  }

  lemma Distribute(y: real, q: real, t: real)
    ensures q * y - t * y == y * (q - t)
  {
  }

  lemma ProductSigns(a: real, b: real)
    ensures a > 0.0 && b > 0.0 ==> a * b > 0.0
    ensures a > 0.0 && b < 0.0 ==> a * b < 0.0
    ensures a < 0.0 && b > 0.0 ==> a * b < 0.0
    ensures a < 0.0 && b < 0.0 ==> a * b > 0.0
  {
  }

  /** `y * (q - t)` lies strictly between `-|y|` and `|y|` and has the sign of `q * y`. */
  lemma FmodBounds(q: real, t: real, y: real)
    requires y != 0.0
    requires q >= 0.0 ==> 0.0 <= t <= q < t + 1.0
    requires q < 0.0 ==> t - 1.0 < q <= t <= 0.0
    ensures Abs(y * (q - t)) < Abs(y)
    ensures y * (q - t) == 0.0 || (y * (q - t) < 0.0 <==> q * y < 0.0)
  {
    var d := q - t;
    var e := y * d;
    var below, above := 1.0 - d, 1.0 + d;
    assert below > 0.0 && above > 0.0;
    ProductSigns(y, below);
    ProductSigns(y, above);
    ProductSigns(y, d);
    ProductSigns(y, q);
    assert y * below == y - e;
    assert y * above == y + e;
    if y > 0.0 {
      assert -y < e < y;
    } else {
      assert y < e < -y;
    }
    assert Abs(e) < Abs(y);
    if d != 0.0 {
      assert q != 0.0;
      assert (d > 0.0) == (q > 0.0);
    }
  }

  /** The remainder the test suite asserts: `fmod(10, 3) = 1`. */
  lemma FmodTenThree()
    ensures Fmod(10.0, 3.0) == 1.0
  {
    assert Trunc(10.0 / 3.0) == 3;
  }
}
