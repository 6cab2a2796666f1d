/// The parts of JavaScript's `Math` object and `%` operator that the motion
/// path and the demo page use, over exact reals.
///
/// `Math.atan2`, `Math.hypot`, `Math.cos` and `Math.sin` are not computable
/// here, so they are carried as function values in a `MathFns` record, and the
/// predicates below state the only laws the model relies on. They are the laws
/// of an idealised trigonometry in which `PI` is exactly half a turn (the
/// literal below is not exactly pi, so real atan2, cos and sin break
/// `Atan2Range` and `Periodic` slightly); each property that needs one names it
/// in its contract.
module JsMath {

  /// `Math.PI` (the literal JavaScript prints for it).
  const PI: real := 3.141592653589793

  /// The four transcendental functions, in JavaScript's argument order:
  /// `atan2(y, x)` and `hypot(x, y)`.
  datatype MathFns = MathFns(
    atan2: (real, real) -> real,
    hypot: (real, real) -> real,
    cos: real -> real,
    sin: real -> real)

  /// `atan2` lands in (-PI, PI].
  ghost predicate Atan2Range(m: MathFns) {
    forall y, x :: -PI < m.atan2(y, x) <= PI
  }

  /// `hypot` is the non-negative Euclidean norm.
  ghost predicate HypotNorm(m: MathFns) {
    forall x, y :: 0.0 <= m.hypot(x, y) && m.hypot(x, y) * m.hypot(x, y) == x * x + y * y
  }

  /// cos^2 + sin^2 = 1.
  ghost predicate UnitCircle(m: MathFns) {
    forall t :: m.cos(t) * m.cos(t) + m.sin(t) * m.sin(t) == 1.0
  }

  /// cos and sin repeat after a whole turn.
  ghost predicate Periodic(m: MathFns) {
    (forall s, t :: t - s == 2.0 * PI ==> m.cos(t) == m.cos(s)) &&
    (forall s, t :: t - s == 2.0 * PI ==> m.sin(t) == m.sin(s))
  }

  /// Taking (x, z) to polar form with `atan2` and `hypot` and back with `cos`
  /// and `sin` gives (x, z) again.
  ghost predicate PolarRoundTrip(m: MathFns) {
    forall x, z :: m.hypot(x, z) * m.cos(m.atan2(z, x)) == x && m.hypot(x, z) * m.sin(m.atan2(z, x)) == z
  }

  /// A point at distance `r` along the direction of angle t is |r| away from the origin.
  lemma ScaledUnitCircle(m: MathFns, r: real, t: real, x: real, z: real)
    requires UnitCircle(m)
    requires x == r * m.cos(t) && z == r * m.sin(t)
    ensures x * x + z * z == r * r
  {
    var c, s := m.cos(t), m.sin(t);
    assert c * c + s * s == 1.0;
    SumOfScaledSquares(r, c, s);
  }

  lemma SumOfScaledSquares(r: real, c: real, s: real)
    ensures (r * c) * (r * c) + (r * s) * (r * s) == (r * r) * (c * c + s * s)
  {
  }

  /// Shifting an angle by a whole turn in either direction leaves cos and sin as they were.
  lemma FullTurn(m: MathFns, t: real, k: int)
    requires k == -1 || k == 0 || k == 1
    ensures Periodic(m) ==> m.cos(t + 2.0 * PI * k as real) == m.cos(t)
    ensures Periodic(m) ==> m.sin(t + 2.0 * PI * k as real) == m.sin(t)
  {
    if !Periodic(m) { return; }
    var t' := t + 2.0 * PI * k as real;
    if k == 1 {
      assert t' - t == 2.0 * PI;
      assert m.cos(t') == m.cos(t) && m.sin(t') == m.sin(t);
    } else if k == -1 {
      assert t - t' == 2.0 * PI;
      assert m.cos(t) == m.cos(t') && m.sin(t) == m.sin(t');
    }
  }

  /// Truncation toward zero, as JavaScript's `%` uses it.
  function Trunc(x: real): (n: int)
    ensures 0.0 <= x ==> n as real <= x < n as real + 1.0
    ensures x < 0.0 ==> n as real - 1.0 < x <= n as real
  {
    if 0.0 <= x then x.Floor else -((-x).Floor)
  }

  /// JavaScript's `a % 1`: what is left of `a` after dropping its integer
  /// part toward zero. It keeps the sign of `a`, is less than 1 in magnitude,
  /// and differs from `a` by a whole number.
  function JsRemainderOne(a: real): (r: real)
    ensures 0.0 <= a ==> 0.0 <= r < 1.0
    ensures a <= 0.0 ==> -1.0 < r <= 0.0
    ensures (a - r).Floor as real == a - r
  {
    a - Trunc(a) as real
  }
}
