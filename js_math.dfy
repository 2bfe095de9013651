/** The JavaScript numeric primitives the simulation uses.
    Numbers are modelled as `real`.  `Math.sqrt`, `Math.sin`, `Math.cos`,
    `Math.atan2`, `Math.exp` and `Math.PI` are not computed: they are passed
    around as a record of functions, and `Lawful` lists the facts about them
    that the proofs rely on (each one is true of the real functions). */
module JsMath {

  /** `x ** 2` */
  function Sq(x: real): real { x * x }

  function Min(a: real, b: real): real { if a <= b then a else b }

  function Max(a: real, b: real): real { if a >= b then a else b }

  function Abs(x: real): (r: real)
    ensures r >= 0.0 && (r == x || r == -x)
  { if x < 0.0 then -x else x }

  /** `Math.pow(x, 4)` */
  function Pow4(x: real): real { Sq(Sq(x)) }

  /** `Math.floor`, as an integer */
  function Floor(x: real): int { x.Floor }

  /** Truncation toward zero, as JavaScript's `%` uses it. */
  function Trunc(x: real): int { if x >= 0.0 then x.Floor else -((-x).Floor) }

  /** JavaScript's `a % b` on numbers: the remainder takes the sign of `a`. */
  function JsRemainder(a: real, b: real): real
    requires b != 0.0
  { a - b * (Trunc(a / b) as real) }

  /** A draw of `Math.random()`. */
  predicate IsUnitDraw(r: real) { 0.0 <= r < 1.0 }

  /** `Math.floor(Math.random() * n)`: a uniform index below `n`. */
  function ScaledFloor(r: real, n: nat): (k: nat)
    requires IsUnitDraw(r) && n > 0
    ensures k < n
  {
    FloorOfScaledDraw(r, n);
    Floor(r * n as real)
  }

  datatype MathFns = MathFns(
    pi: real,
    sqrt: real -> real,
    sin: real -> real,
    cos: real -> real,
    atan2: (real, real) -> real,
    exp: real -> real)
  {
    ghost predicate SqrtLaws() {
      && (forall x :: 0.0 <= x ==> 0.0 <= sqrt(x))
      && (forall x, y :: 0.0 <= x < y ==> sqrt(x) < sqrt(y))
      && (forall x :: 0.0 <= x ==> sqrt(Sq(x)) == x)
    }

    ghost predicate TrigLaws() {
      && pi > 0.0
      && (forall x :: -1.0 <= sin(x) <= 1.0)
      && (forall x :: -1.0 <= cos(x) <= 1.0)
      && (forall x :: Sq(sin(x)) + Sq(cos(x)) == 1.0)
      && cos(0.0) == 1.0
      && cos(pi / 2.0) == 0.0
      && (forall y, x :: -pi < atan2(y, x) <= pi)
    }

    ghost predicate ExpLaws() {
      && (forall x :: x <= 0.0 ==> 0.0 < exp(x) <= 1.0)
      && exp(0.0) == 1.0
      && (forall x, y :: x < y ==> exp(x) < exp(y))
    }

    ghost predicate Lawful() {
      SqrtLaws() && TrigLaws() && ExpLaws()
    }
  }

  lemma SqrtOfOne(m: MathFns)
    requires m.Lawful()
    ensures m.sqrt(1.0) == 1.0
  {
    assert Sq(1.0) == 1.0;
  }

  /** A scaled draw floors into `[0, n)`, as `Math.floor(Math.random() * n)` does. */
  lemma FloorOfScaledDraw(r: real, n: nat)
    requires IsUnitDraw(r) && n > 0
    ensures 0 <= Floor(r * n as real) < n
  {
    assert r * n as real < n as real by {
      assert (1.0 - r) * n as real > 0.0;
    }
  }

  lemma MulNonNegative(a: real, b: real)
    requires a >= 0.0 && b >= 0.0
    ensures a * b >= 0.0
  {
  }

  /** A point at distance `r` along a direction with `c^2 + s^2 = 1` is at
      squared distance `r^2`. */
  lemma PolarSquaredNorm(r: real, c: real, s: real)
    requires Sq(c) + Sq(s) == 1.0
    ensures Sq(r * c) + Sq(r * s) == Sq(r)
  {
    calc {
      Sq(r * c) + Sq(r * s);
      == (r * r) * (c * c + s * s);
      == (r * r) * 1.0;
    }
  }

  /** Scaling by a factor in `[0, 1]` stays between 0 and the original. */
  lemma UnitScale(r: real, s: real)
    requires 0.0 <= r <= 1.0 && s >= 0.0
    ensures 0.0 <= r * s <= s
  {
    MulNonNegative(r, s);
    MulNonNegative(1.0 - r, s);
    assert (1.0 - r) * s == s - r * s;
  }

  /** Squaring keeps `(0, 1]`. */
  lemma SqUnitInterval(x: real)
    requires 0.0 < x <= 1.0
    ensures 0.0 < Sq(x) <= 1.0
  {
    calc { Sq(x); == x * x; > 0.0; }
    calc { Sq(x); == x * x; <= x * 1.0; <= 1.0; }
  }

  /** `Math.pow(x, 4)` of a number in `(0, 1]` stays in `(0, 1]`. */
  lemma Pow4UnitInterval(x: real)
    requires 0.0 < x <= 1.0
    ensures 0.0 < Pow4(x) <= 1.0
  {
    SqUnitInterval(x);
    SqUnitInterval(Sq(x));
  }

  /** The square of a number in `[-1, 1]` lies in `[0, 1]`. */
  lemma SqUnitBound(x: real)
    requires -1.0 <= x <= 1.0
    ensures 0.0 <= Sq(x) <= 1.0
  {
    if x >= 0.0 {
      calc { Sq(x); == x * x; <= x * 1.0; <= 1.0; }
    } else {
      calc { Sq(x); == (-x) * (-x); <= (-x) * 1.0; <= 1.0; }
    }
  }

  lemma SqNonNegative(x: real)
    ensures Sq(x) >= 0.0
  {
    if x < 0.0 {
      calc { Sq(x); == (-x) * (-x); >= 0.0; }
    }
  }

  /** Squaring is strictly increasing on the non-negative numbers. */
  lemma SqStrictlyIncreasing(a: real, b: real)
    requires 0.0 <= a < b
    ensures Sq(a) < Sq(b)
  {
    calc { Sq(a); == a * a; <= a * b; < b * b; == Sq(b); }
  }

  /** Multiplying by a positive factor keeps order. */
  lemma MulLeftMonotone(b: real, x: real, y: real)
    requires b > 0.0 && x <= y
    ensures b * x <= b * y
  {
    MulNonNegative(b, y - x);
  }

  /** `a - b * k` with `k` the floor of the quotient lies in `[0, b)`. */
  lemma FlooredRemainder(a: real, b: real, q: real, k: real)
    requires b > 0.0 && a == b * q && k <= q < k + 1.0
    ensures 0.0 <= a - b * k < b
  {
    MulLeftMonotone(b, k, q);
    calc {
      b - (a - b * k);
      == b * (k + 1.0 - q);
      > 0.0;
    }
  }

  /** JavaScript's `%` of a non-negative number by a positive one lies in
      `[0, b)`. */
  lemma JsRemainderOfNonNegative(a: real, b: real)
    requires a >= 0.0 && b > 0.0
    ensures 0.0 <= JsRemainder(a, b) < b
  {
    var q := a / b;
    assert Trunc(q) == q.Floor;
    FlooredRemainder(a, b, q, q.Floor as real);
  }

  /** Converting an angle in `(-pi, pi]` to degrees gives `(-180, 180]`. */
  lemma DegreesOfAngle(pi: real, a: real)
    requires pi > 0.0 && -pi < a <= pi
    ensures -180.0 < a * 180.0 / pi <= 180.0
  {
    var d := a * 180.0 / pi;
    assert d * pi == a * 180.0;
    if d <= -180.0 {
      MulLeftMonotone(pi, d, -180.0);
      assert false;
    }
    if d > 180.0 {
      MulLeftMonotone(pi, 180.0, d);
      assert false;
    }
  }
}
