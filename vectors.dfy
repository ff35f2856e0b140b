/**
 * Two-dimensional vectors over the reals, standing for the p5 `Vector` the fish use.
 * The transcendental operations (square root, atan2, sine, cosine) cannot be computed
 * here; they are the fields of a `Maths` record that callers pass in, and `Maths.Valid()`
 * states the few facts about them the proofs need. The module closes with the few facts
 * of real arithmetic (squares, products, proportions) the other modules lean on.
 */
module Vectors {

  /** numpy's `np.pi`. */
  const PI: real := 3.141592653589793

  datatype Vec = Vec(x: real, y: real)

  function Add(a: Vec, b: Vec): Vec { Vec(a.x + b.x, a.y + b.y) }

  function Sub(a: Vec, b: Vec): Vec { Vec(a.x - b.x, a.y - b.y) }

  function Scale(v: Vec, k: real): Vec { Vec(k * v.x, k * v.y) }

  function Dot(a: Vec, b: Vec): real { a.x * b.x + a.y * b.y }

  /** The squared magnitude, which needs no square root. */
  function NormSq(v: Vec): (r: real)
    ensures 0.0 <= r
  {
    v.x * v.x + v.y * v.y
  }

  /** The external numeric functions a fish's rules rely on. */
  datatype Maths = Maths(sqrt: real -> real, atan2: (real, real) -> real,
                         sin: real -> real, cos: real -> real)
  {
    ghost predicate Valid() {
      && (forall s :: 0.0 <= s ==> 0.0 <= sqrt(s) && Sq(sqrt(s)) == s)
      && (forall y, x :: -PI < atan2(y, x) <= PI)
      && (forall t :: -1.0 <= sin(t) <= 1.0)
    }
  }

  /** `Vector.magnitude`. */
  function Magnitude(m: Maths, v: Vec): real { m.sqrt(NormSq(v)) }

  /** `a.distance(b)`: the magnitude of the difference. */
  function Distance(m: Maths, a: Vec, b: Vec): real { Magnitude(m, Sub(a, b)) }

  /** `Vector.angle`: the heading, atan2 of the components. */
  function Heading(m: Maths, v: Vec): real { m.atan2(v.y, v.x) }

  /** `Vector.rotate(theta)`: rotation by the angle theta. */
  function Rotate(m: Maths, v: Vec, theta: real): Vec {
    Vec(v.x * m.cos(theta) - v.y * m.sin(theta), v.x * m.sin(theta) + v.y * m.cos(theta))
  }

  /** Squares and products behind function names: comparisons of raw products against each
      other are simplified away by the solver, comparisons of these applications are not. */
  function Sq(a: real): real { a * a }

  function Mul(a: real, b: real): real { a * b }

  lemma SqNeg(a: real)
    ensures Sq(-a) == Sq(a)
  {
  }

  lemma SqLt(a: real, b: real)
    requires 0.0 <= a < b
    ensures Sq(a) < Sq(b)
  {
    assert Mul(a, a) <= Mul(a, b);
    assert Mul(a, b) < Mul(b, b);
  }

  lemma SqLe(a: real, b: real)
    requires 0.0 <= a <= b
    ensures Sq(a) <= Sq(b)
  {
    assert Mul(a, a) <= Mul(a, b);
    assert Mul(a, b) <= Mul(b, b);
  }

  /** A count k out of n > 0 with k <= n gives a proportion k / n in [0, 1]. */
  lemma ProportionBounds(k: nat, n: nat)
    requires k <= n && 0 < n
    ensures 0.0 <= k as real / n as real <= 1.0
  {
    var q := k as real / n as real;
    assert q * n as real == k as real;
  }

  /** Two non-negative reals with equal squares are equal. */
  lemma SquareRootUnique(a: real, b: real)
    requires 0.0 <= a && 0.0 <= b && Sq(a) == Sq(b)
    ensures a == b
  {
    if a < b {
      SqLt(a, b);
    } else if b < a {
      SqLt(b, a);
    }
  }

  lemma MagnitudeNonNegative(m: Maths, v: Vec)
    requires m.Valid()
    ensures 0.0 <= Magnitude(m, v)
  {
  }

  lemma MagnitudeBounds(m: Maths, v: Vec)
    requires m.Valid()
    ensures 0.0 <= Magnitude(m, v)
    ensures Sq(Magnitude(m, v)) == NormSq(v)
  {
  }

  lemma SqZero(a: real)
    requires 0.0 <= a
    ensures a == 0.0 <==> Sq(a) == 0.0
  {
    if a != 0.0 {
      SqLt(0.0, a);
    }
  }

  /** Only the zero vector has magnitude zero. */
  lemma MagnitudeZero(m: Maths, v: Vec)
    requires m.Valid()
    ensures Magnitude(m, v) == 0.0 <==> NormSq(v) == 0.0
  {
    MagnitudeBounds(m, v);
    SqZero(Magnitude(m, v));
  }

  /** Scaling by a non-negative factor scales the magnitude by that factor. */
  lemma MagnitudeScale(m: Maths, v: Vec, k: real)
    requires m.Valid() && 0.0 <= k
    ensures Magnitude(m, Scale(v, k)) == k * Magnitude(m, v)
  {
    MagnitudeBounds(m, v);
    MagnitudeBounds(m, Scale(v, k));
    var n := Magnitude(m, v);
    var a := Magnitude(m, Scale(v, k));
    var b := k * n;
    NormSqScale(v, k);
    assert Sq(b) == Sq(k) * Sq(n);
    assert 0.0 <= b by { ProductSign(k, n); assert b == Mul(k, n); }
    SquareRootUnique(a, b);
  }

  lemma NormSqScale(v: Vec, k: real)
    ensures NormSq(Scale(v, k)) == Sq(k) * NormSq(v)
  {
  }

  /** Scaling by any factor scales the magnitude by the factor's absolute value. */
  lemma MagnitudeScaleAbs(m: Maths, v: Vec, k: real)
    requires m.Valid()
    ensures Magnitude(m, Scale(v, k)) == (if 0.0 <= k then k else -k) * Magnitude(m, v)
  {
    if 0.0 <= k {
      MagnitudeScale(m, v, k);
    } else {
      var j := -k;
      MagnitudeScale(m, v, j);
      assert NormSq(Scale(v, k)) == NormSq(Scale(v, j)) by {
        NormSqScale(v, k);
        NormSqScale(v, j);
        SqNeg(k);
      }
    }
  }

  /** The sign of a product from the signs of its factors. */
  lemma ProductSign(a: real, b: real)
    ensures 0.0 <= a && 0.0 <= b ==> 0.0 <= Mul(a, b)
    ensures 0.0 < a && 0.0 < b ==> 0.0 < Mul(a, b)
    ensures 0.0 < a && b < 0.0 ==> Mul(a, b) < 0.0
    ensures a < 0.0 && 0.0 < b ==> Mul(a, b) < 0.0
  {
    if 0.0 <= a && 0.0 <= b {
      assert Mul(0.0, b) <= Mul(a, b);
    }
    if 0.0 < a && 0.0 < b {
      assert Mul(0.0, b) < Mul(a, b);
    }
    if 0.0 < a && b < 0.0 {
      assert Mul(a, b) < Mul(a, 0.0);
    }
    if a < 0.0 && 0.0 < b {
      assert Mul(a, b) < Mul(0.0, b);
    }
  }

  /** The sign of a quotient by a positive divisor is the sign of the dividend. */
  lemma QuotientSign(n: real, w: real)
    requires 0.0 < w
    ensures 0.0 < n ==> 0.0 < n / w
    ensures n < 0.0 ==> n / w < 0.0
  {
    var q := n / w;
    assert Mul(q, w) == n;
    ProductSign(q, w);
  }

  /** Multiplying by a positive factor keeps the sign. */
  lemma AbsMul(k: real, s: real)
    requires 0.0 < s
    ensures (if 0.0 <= k then k else -k) * s == if 0.0 <= k * s then k * s else -(k * s)
  {
    ProductSign(k, s);
    assert Mul(k, s) == k * s;
    assert (-k) * s == -(k * s);
  }
}
