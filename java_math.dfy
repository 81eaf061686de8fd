/** The routines of `java.lang.Math` that the coordinate converter calls.

    Dafny cannot evaluate sine, cosine, arc tangent or square root, so the
    converter takes them as a value `Libm` of function fields. Every fact
    about the converter that depends on what these routines compute is
    stated under `Sound(m)`: a handful of identities and bounds that the
    real-number functions satisfy. Nothing is claimed about IEEE-754 rounding.
 */
module JavaMath {

  /** `Math.sin`, `Math.cos`, `Math.atan2` (arguments in the order y, x) and `Math.sqrt`. */
  datatype Libm = Libm(sin: real -> real, cos: real -> real, atan2: (real, real) -> real, sqrt: real -> real)

  /** A rational number just below π/2; the cosine is positive on (-QuarterTurn, QuarterTurn). */
  const QuarterTurn: real := 1.5707963267948966

  /** The properties of the real sine, cosine and square root the proofs rely on. The two
      product identities are stated through SinCosSquares and SqrtSquared, so a proof uses
      them only where it names those terms. */
  ghost predicate Sound(m: Libm) {
    && (forall x :: -1.0 <= m.sin(x) <= 1.0)
    && (forall x :: SinCosSquares(m, x) == 1.0)
    && (forall x :: -QuarterTurn < x < QuarterTurn ==> 0.0 < m.cos(x))
    && (forall x :: 0.0 <= x ==> 0.0 <= m.sqrt(x))
    && (forall x :: 0.0 <= x ==> SqrtSquared(m, x) == x)
  }

  /** sin²(x) + cos²(x). */
  ghost function SinCosSquares(m: Libm, x: real): real {
    m.sin(x) * m.sin(x) + m.cos(x) * m.cos(x)
  }

  /** sqrt(x)². */
  ghost function SqrtSquared(m: Libm, x: real): real {
    m.sqrt(x) * m.sqrt(x)
  }

  /** `Math.sqrt(x * x + y * y)`, the distance of (x, y) from the origin. */
  function Hypot(m: Libm, x: real, y: real): real {
    m.sqrt(x * x + y * y)
  }

  /** `Math.abs` on doubles. */
  function Abs(x: real): (r: real)
    ensures 0.0 <= r
    ensures r == x || r == -x
    ensures x <= r && -x <= r
  {
    if x < 0.0 then -x else x
  }

  /** x·x stays below b·b when x lies in [-b, b]. */
  lemma SquareAtMost(x: real, b: real)
    requires -b <= x <= b
    ensures 0.0 <= x * x <= b * b
  {
    if 0.0 <= x {
      assert x * x <= b * x;
      assert b * x <= b * b;
    } else {
      assert x * x == (-x) * (-x);
      assert (-x) * (-x) <= b * (-x);
      assert b * (-x) <= b * b;
    }
  }

  /** |x·y| stays below xMax·yMax when |x| <= xMax and |y| <= yMax. */
  lemma ProductAtMost(x: real, y: real, xMax: real, yMax: real)
    requires Abs(x) <= xMax && Abs(y) <= yMax
    ensures Abs(x * y) <= xMax * yMax
  {
    assert Abs(x * y) == Abs(x) * Abs(y) by {
      if x < 0.0 && y < 0.0 {
        assert x * y == (-x) * (-y);
      } else if x < 0.0 {
        assert -(x * y) == (-x) * y;
      } else if y < 0.0 {
        assert -(x * y) == x * (-y);
      }
    }
    assert Abs(x) * Abs(y) <= xMax * Abs(y);
    assert xMax * Abs(y) <= xMax * yMax;
  }

  /** The square root of a positive number is positive. */
  lemma SqrtPositive(m: Libm, x: real)
    requires Sound(m)
    requires 0.0 < x
    ensures 0.0 < m.sqrt(x)
  {
    var s := m.sqrt(x);
    assert 0.0 <= s && SqrtSquared(m, x) == x;
  }

  /** Squaring is strictly increasing on the non-negative reals. */
  lemma SquareIncreasing(x: real, y: real)
    requires 0.0 <= x < y
    ensures x * x < y * y
  {
    calc {
      x * x;
    <= x * y;
    <  y * y;
    }
  }

  /** The square root of a number at most b·b is at most b. */
  lemma SqrtAtMost(m: Libm, x: real, b: real)
    requires Sound(m)
    requires 0.0 <= x <= b * b && 0.0 <= b
    ensures m.sqrt(x) <= b
  {
    var s := m.sqrt(x);
    assert 0.0 <= s && SqrtSquared(m, x) == x;
    if b < s {
      SquareIncreasing(b, s);
    }
  }

  /** The square root of a square is the absolute value. */
  lemma SqrtOfSquare(m: Libm, z: real)
    requires Sound(m)
    ensures m.sqrt(z * z) == Abs(z)
  {
    var s := m.sqrt(z * z);
    var a := Abs(z);
    assert a * a == z * z;
    assert 0.0 <= s && SqrtSquared(m, z * z) == a * a;
    if s < a {
      SquareIncreasing(s, a);
    } else if a < s {
      SquareIncreasing(a, s);
    }
  }

  /** The point (u, v) = (z·cos theta, z·sin theta) has u² + v² = z². */
  lemma PolarSquares(m: Libm, z: real, theta: real, u: real, v: real)
    requires Sound(m)
    requires u == z * m.cos(theta) && v == z * m.sin(theta)
    ensures u * u + v * v == z * z
  {
    calc {
      u * u + v * v;
      z * z * SinCosSquares(m, theta);
      z * z;
    }
  }

  /** A point whose squared coordinates add up to w² lies at distance |w| from the origin. */
  lemma HypotOfSquare(m: Libm, u: real, v: real, w: real)
    requires Sound(m)
    requires u * u + v * v == w * w
    ensures Hypot(m, u, v) == Abs(w)
  {
    SqrtOfSquare(m, w);
  }

  /** The point (u, v) = (z·cos theta, z·sin theta) lies at distance |z| from the origin. */
  lemma PolarNorm(m: Libm, z: real, theta: real, u: real, v: real)
    requires Sound(m)
    requires u == z * m.cos(theta) && v == z * m.sin(theta)
    ensures Hypot(m, u, v) == Abs(z)
  {
    PolarSquares(m, z, theta, u, v);
    HypotOfSquare(m, u, v, z);
  }

  /** A sum of two squares is never negative. */
  lemma SquaresNonnegative(u: real, v: real)
    ensures 0.0 <= u * u + v * v
  {
    SquareAtMost(u, Abs(u));
    SquareAtMost(v, Abs(v));
  }

  /** A distance from the origin is never negative. */
  lemma HypotNonnegative(m: Libm, x: real, y: real)
    requires Sound(m)
    ensures 0.0 <= Hypot(m, x, y)
  {
    SquaresNonnegative(x, y);
  }

  /** Adding at most b to a non-negative s moves its absolute value by at most b. */
  lemma PerturbedMagnitude(s: real, e: real, b: real)
    requires 0.0 <= s && Abs(e) <= b
    ensures Abs(Abs(s + e) - s) <= b
  {
  }
}
