/// `ButterflyMotionPath`: a flight path from a start point to an end point that
/// interpolates angle, radius and height about the vertical axis through the
/// origin, taking the shorter way round, sampled at a fixed 100 points; and the
/// frame (basis and position) of a flier at a given time along it.
module ButterflyMotionPath {
  import opened Geometry
  import opened JsMath
  import Matrix4

  /// Number of samples the path is built from (`n`).
  const SampleCount: nat := 100

  /// A point of the horizontal plane in polar form: `[angle, radius]`.
  datatype Polar = Polar(angle: real, radius: real)

  /// The queries the spline built over the samples answers (three.js
  /// `CatmullRomCurve3.getPointAt` and `getTangentAt`), as given functions of the
  /// samples and the time.
  datatype Spline = Spline(
    pointAt: (seq<Vec3>, real) -> Vec3,
    tangentAt: (seq<Vec3>, real) -> Vec3)

  /// `toPolar(x, y) = [atan2(y, x), hypot(x, y)]`: the angle lies in (-PI, PI],
  /// the radius is the non-negative distance from the origin, and the polar form
  /// converts back to (x, y).
  function ToPolar(m: MathFns, x: real, y: real): (p: Polar)
    ensures Atan2Range(m) ==> -PI < p.angle <= PI
    ensures HypotNorm(m) ==> 0.0 <= p.radius && p.radius * p.radius == x * x + y * y
    ensures PolarRoundTrip(m) ==> p.radius * m.cos(p.angle) == x && p.radius * m.sin(p.angle) == y
  {
    Polar(m.atan2(y, x), m.hypot(x, y))
  }

  /// The shortest-arc correction of the end angle `b` against the start angle `a`:
  /// it moves `b` by a whole turn (never more), exactly when the two are more than
  /// half a turn apart (a difference of exactly PI is left alone), and for angles
  /// in (-PI, PI] it leaves at most half a turn between them.
  function ShortestArc(a: real, b: real): (c: real)
    ensures c == b - 2.0 * PI || c == b || c == b + 2.0 * PI
    ensures c == b <==> -PI <= b - a <= PI
    ensures b - a < -PI ==> c == b + 2.0 * PI
    ensures b - a > PI ==> c == b - 2.0 * PI
    ensures -PI < a <= PI && -PI < b <= PI ==> -PI <= c - a <= PI
  {
    var d := b - a;
    b + 2.0 * PI * (if d < -PI then 1.0 else if d > PI then -1.0 else 0.0)
  }

  /// The polar forms of the start and end points (of their x and z) after the
  /// shortest-arc correction: the start and both radii are those of `toPolar`,
  /// the end angle is the start angle plus at most half a turn either way.
  function ArcEnds(m: MathFns, a: Vec3, b: Vec3): (ends: (Polar, Polar))
    ensures ends.0 == ToPolar(m, a.x, a.z)
    ensures ends.1.radius == ToPolar(m, b.x, b.z).radius
    ensures Atan2Range(m) ==> -PI <= ends.1.angle - ends.0.angle <= PI
  {
    var ap, bp := ToPolar(m, a.x, a.z), ToPolar(m, b.x, b.z);
    (ap, bp.(angle := ShortestArc(ap.angle, bp.angle)))
  }

  /// The corrected end angle points the same way as the uncorrected one.
  lemma ArcEndsDirection(m: MathFns, a: Vec3, b: Vec3)
    requires Periodic(m)
    ensures m.cos(ArcEnds(m, a, b).1.angle) == m.cos(ToPolar(m, b.x, b.z).angle)
    ensures m.sin(ArcEnds(m, a, b).1.angle) == m.sin(ToPolar(m, b.x, b.z).angle)
  {
  }

  /// The time of sample `i`, `u = i / (n - 1)`: 0 for the first sample, 1 for the
  /// last, in [0, 1] for all of them.
  function SampleParam(i: nat): (u: real)
    requires i < SampleCount
    ensures 0.0 <= u <= 1.0
    ensures i == 0 ==> u == 0.0
    ensures i == SampleCount - 1 ==> u == 1.0
  {
    i as real / (SampleCount - 1) as real
  }

  /// The sample times are strictly increasing.
  lemma SampleParamIncreasing(i: nat, j: nat)
    requires i < j < SampleCount
    ensures SampleParam(i) < SampleParam(j)
  {
  }

  /// `lerpArc(out, u)`: the point whose angle, radius and height are each
  /// interpolated at `u` between the two ends. Its height goes from `ya` to `yb`
  /// and stays between them.
  function LerpArc(m: MathFns, ap: Polar, bp: Polar, ya: real, yb: real, u: real): (p: Vec3)
    ensures u == 0.0 ==> p.y == ya
    ensures u == 1.0 ==> p.y == yb
    ensures 0.0 <= u <= 1.0 && ya <= yb ==> ya <= p.y <= yb
    ensures 0.0 <= u <= 1.0 && yb <= ya ==> yb <= p.y <= ya
  {
    var theta := Lerp(ap.angle, bp.angle, u);
    var r := Lerp(ap.radius, bp.radius, u);
    var y := Lerp(ya, yb, u);
    Vec3(r * m.cos(theta), y, r * m.sin(theta))
  }

  /// The 100 points `initCurve` builds the spline through. The heights run from
  /// the start's to the end's and never leave the range between them.
  function ArcSamples(m: MathFns, a: Vec3, b: Vec3): (path: seq<Vec3>)
    ensures |path| == SampleCount
    ensures path[0].y == a.y && path[SampleCount - 1].y == b.y
    ensures a.y <= b.y ==> forall i :: 0 <= i < |path| ==> a.y <= path[i].y <= b.y
    ensures b.y <= a.y ==> forall i :: 0 <= i < |path| ==> b.y <= path[i].y <= a.y
  {
    var ends := ArcEnds(m, a, b);
    seq(SampleCount, i requires 0 <= i < SampleCount => LerpArc(m, ends.0, ends.1, a.y, b.y, SampleParam(i)))
  }

  lemma ArcSampleAt(m: MathFns, a: Vec3, b: Vec3, i: nat)
    requires i < SampleCount
    ensures ArcSamples(m, a, b)[i] == LerpArc(m, ArcEnds(m, a, b).0, ArcEnds(m, a, b).1, a.y, b.y, SampleParam(i))
  {
  }

  /// The path starts exactly at the start point.
  lemma ArcStartsAtStart(m: MathFns, a: Vec3, b: Vec3)
    requires PolarRoundTrip(m)
    ensures ArcSamples(m, a, b)[0] == a
  {
  }

  /// The path ends exactly at the end point, whichever way the correction turned
  /// the end angle.
  lemma ArcEndsAtEnd(m: MathFns, a: Vec3, b: Vec3)
    requires Periodic(m) && PolarRoundTrip(m)
    ensures ArcSamples(m, a, b)[SampleCount - 1] == b
  {
    ArcEndsDirection(m, a, b);
  }

  /// The interpolated radius of every sample lies between the two endpoint radii,
  /// so it is never negative.
  function SampleRadius(m: MathFns, a: Vec3, b: Vec3, i: nat): (r: real)
    requires i < SampleCount
    ensures var ends := ArcEnds(m, a, b);
            (ends.0.radius <= ends.1.radius ==> ends.0.radius <= r <= ends.1.radius) &&
            (ends.1.radius <= ends.0.radius ==> ends.1.radius <= r <= ends.0.radius)
    ensures HypotNorm(m) ==> 0.0 <= r
  {
    var ends := ArcEnds(m, a, b);
    Lerp(ends.0.radius, ends.1.radius, SampleParam(i))
  }

  /// The point `lerpArc` computes lies at the interpolated radius from the
  /// vertical axis.
  lemma LerpArcRadius(m: MathFns, ap: Polar, bp: Polar, ya: real, yb: real, u: real)
    requires UnitCircle(m)
    ensures var p := LerpArc(m, ap, bp, ya, yb, u);
            p.x * p.x + p.z * p.z == Lerp(ap.radius, bp.radius, u) * Lerp(ap.radius, bp.radius, u)
  {
  }

  /// Every sample lies at its interpolated radius from the vertical axis.
  lemma ArcSampleRadius(m: MathFns, a: Vec3, b: Vec3, i: nat)
    requires UnitCircle(m)
    requires i < SampleCount
    ensures var p := ArcSamples(m, a, b)[i];
            p.x * p.x + p.z * p.z == SampleRadius(m, a, b, i) * SampleRadius(m, a, b, i)
  {
    var ends := ArcEnds(m, a, b);
    ArcSampleAt(m, a, b, i);
    LerpArcRadius(m, ends.0, ends.1, a.y, b.y, SampleParam(i));
  }

  /// The sample angles sweep monotonically from the start angle to the corrected
  /// end angle, so the path turns at most half a turn about the vertical axis.
  lemma ArcSweepMonotone(m: MathFns, a: Vec3, b: Vec3, i: nat, j: nat)
    requires i < j < SampleCount
    ensures var ends := ArcEnds(m, a, b);
            var ti := Lerp(ends.0.angle, ends.1.angle, SampleParam(i));
            var tj := Lerp(ends.0.angle, ends.1.angle, SampleParam(j));
            (ends.0.angle < ends.1.angle ==> ti < tj) &&
            (ends.1.angle < ends.0.angle ==> tj < ti)
  {
    var ends := ArcEnds(m, a, b);
    SampleParamIncreasing(i, j);
    LerpMonotone(ends.0.angle, ends.1.angle, SampleParam(i), SampleParam(j));
  }

  /// The right vector of a frame: `forward x up` with `up = (0, 1, 0)`. It is
  /// `(-f.z, 0, f.x)`, perpendicular to both, and zero when forward is vertical.
  lemma RightOfForward(f: Vec3)
    ensures Cross(f, Up) == Vec3(-f.z, 0.0, f.x)
    ensures Dot(Cross(f, Up), f) == 0.0 && Dot(Cross(f, Up), Up) == 0.0
    ensures f.x == 0.0 && f.z == 0.0 ==> Cross(f, Up) == Vec3(0.0, 0.0, 0.0)
  {
  }

  class MotionPath {
    /// `[startPosition, endPosition]`.
    var points: seq<Vec3>
    /// Scratch vectors that `getMatrixAt` overwrites.
    var position: Vec3
    var forward: Vec3
    var right: Vec3
    /// Fixed at (0, 1, 0); nothing recomputes it.
    var up: Vec3
    /// The samples the spline passes through.
    var curve: seq<Vec3>
    const math: MathFns
    const spline: Spline

    ghost predicate Valid()
      reads this`points, this`up, this`curve
    {
      |points| == 2 && up == Up && curve == ArcSamples(math, points[0], points[1])
    }

    constructor (startPosition: Vec3, endPosition: Vec3, math: MathFns, spline: Spline)
      ensures Valid()
      ensures points == [startPosition, endPosition]
      ensures this.math == math && this.spline == spline
      ensures position == forward == right == Vec3(0.0, 0.0, 0.0)
    {
      points := [startPosition, endPosition];
      position, forward, right := Vec3(0.0, 0.0, 0.0), Vec3(0.0, 0.0, 0.0), Vec3(0.0, 0.0, 0.0);
      up := Up;
      curve := [];
      this.math := math;
      this.spline := spline;
      new;
      InitCurve();
    }

    /// `initCurve`: the end angle is corrected in place, then the samples are
    /// pushed one by one.
    method InitCurve()
      requires |points| == 2
      modifies this`curve
      ensures curve == ArcSamples(math, points[0], points[1])
    {
      var a, b := points[0], points[1];
      var ap, bp := ToPolar(math, a.x, a.z), ToPolar(math, b.x, b.z);
      // turn the end angle by a whole turn if the two are over half a turn apart
      var d := bp.angle - ap.angle;
      bp := bp.(angle := bp.angle + 2.0 * PI * (if d < -PI then 1.0 else if d > PI then -1.0 else 0.0));
      assert (ap, bp) == ArcEnds(math, a, b);

      var n := SampleCount;
      var path := [];
      for i := 0 to n
        invariant |path| == i
        invariant forall k :: 0 <= k < i ==> path[k] == LerpArc(math, ap, bp, a.y, b.y, SampleParam(k))
      {
        var u := i as real / (n - 1) as real;
        var p := LerpArc(math, ap, bp, a.y, b.y, u);
        path := path + [p];
      }
      curve := path;
    }

    /// `getMatrixAt(time, matrix)`: reads position and tangent from the spline into
    /// the scratch fields, sets `right = forward x up`, writes `right, up, forward`
    /// as the basis columns and `position` as the translation of `matrix`, and
    /// returns that same matrix. Right is perpendicular to forward and up, but is
    /// not normalised and up is not recomputed.
    method GetMatrixAt(time: real, matrix: array<real>) returns (result: array<real>)
      requires Valid() && matrix.Length == 16
      modifies this`position, this`forward, this`right, matrix
      ensures result == matrix
      ensures Valid()
      ensures position == spline.pointAt(curve, time)
      ensures forward == spline.tangentAt(curve, time)
      ensures points == old(points) && curve == old(curve) && up == old(up) == Up
      ensures right == Cross(forward, up)
      ensures Matrix4.IsAffine(matrix[..], right, up, forward, position)
    {
      position := spline.pointAt(curve, time);
      forward := spline.tangentAt(curve, time);
      right := Cross(forward, up);
      Matrix4.MakeBasis(matrix, right, up, forward);
      Matrix4.SetPosition(matrix, position);
      result := matrix;
    }
  }
}
