/// The arithmetic of the demo page (`main.js`) that drives the motion path:
/// the per-tick time advance, the random endpoint generator and the way a
/// reset feeds fresh endpoints to a new path. Scene, rendering and input are
/// not modelled; the three `Math.random()` draws of each point are parameters.
module Demo {
  import opened Geometry
  import opened JsMath
  import opened ButterflyMotionPath
  import Matrix4

  /// How far `flyTime` advances per tick (`dt`).
  const Dt: real := 0.005

  /// The next flight time, `(flyTime + dt) % 1`: from a time in [0, 1) it stays
  /// in [0, 1), moving forward by `dt` and wrapping back by exactly 1 at the end.
  function Advance(t: real): (r: real)
    ensures 0.0 <= t < 1.0 ==> 0.0 <= r < 1.0
    ensures 0.0 <= t < 1.0 ==> r == (if t + Dt < 1.0 then t + Dt else t + Dt - 1.0)
  {
    JsRemainderOne(t + Dt)
  }

  /// The heading of a random point, `random() * PI * 2`, in [0, 2*PI) for a draw in [0, 1).
  function RandomAngle(d: real): (theta: real)
    ensures 0.0 <= d < 1.0 ==> 0.0 <= theta < 2.0 * PI
  {
    d * PI * 2.0
  }

  /// The distance of a random point from the vertical axis, `lerp(10, 200, random())`,
  /// in [10, 200) for a draw in [0, 1).
  function RandomRadius(d: real): (r: real)
    ensures 0.0 <= d < 1.0 ==> 10.0 <= r < 200.0
  {
    LerpMonotone(10.0, 200.0, d, 1.0);
    Lerp(10.0, 200.0, d)
  }

  /// The height of a random point, `lerp(20, 100, random())`, in [20, 100) for a
  /// draw in [0, 1).
  function RandomHeight(d: real): (y: real)
    ensures 0.0 <= d < 1.0 ==> 20.0 <= y < 100.0
  {
    LerpMonotone(20.0, 100.0, d, 1.0);
    Lerp(20.0, 100.0, d)
  }

  /// `makeRandomPoint()`, given its three draws in the order the source makes
  /// them (angle, radius, height). The height lies in [20, 100).
  function MakeRandomPoint(m: MathFns, d0: real, d1: real, d2: real): (p: Vec3)
    ensures 0.0 <= d2 < 1.0 ==> 20.0 <= p.y < 100.0
  {
    var theta := RandomAngle(d0);
    var r := RandomRadius(d1);
    Vec3(r * m.cos(theta), RandomHeight(d2), r * m.sin(theta))
  }

  /// A random point lies on the circle of its random radius about the vertical
  /// axis, so between 10 and 200 away from it.
  lemma RandomPointOnCircle(m: MathFns, d0: real, d1: real, d2: real)
    requires UnitCircle(m)
    ensures var p := MakeRandomPoint(m, d0, d1, d2);
            p.x * p.x + p.z * p.z == RandomRadius(d1) * RandomRadius(d1)
    ensures 0.0 <= d1 < 1.0 ==>
              var p := MakeRandomPoint(m, d0, d1, d2);
              100.0 <= p.x * p.x + p.z * p.z < 40000.0
  {
    var p := MakeRandomPoint(m, d0, d1, d2);
    var r := RandomRadius(d1);
    ScaledUnitCircle(m, r, RandomAngle(d0), p.x, p.z);
    if 0.0 <= d1 < 1.0 {
      SquareBounds(r, 10.0, 200.0);
    }
  }

  lemma SquareBounds(r: real, lo: real, hi: real)
    requires 0.0 <= lo <= r < hi
    ensures lo * lo <= r * r < hi * hi
  {
    assert r * r - lo * lo == (r - lo) * (r + lo);
    assert hi * hi - r * r == (hi - r) * (hi + r);
    NonNegativeProduct(r - lo, r + lo);
    PositiveProduct(hi - r, hi + r);
  }

  /// The point the i-th reset draw sequence gives for endpoint `i` (0 or 1):
  /// `makeRandomPoint` consumes three draws per point, in order.
  function EndpointFromDraws(m: MathFns, draws: seq<real>, i: nat): (p: Vec3)
    requires |draws| == 6 && i < 2
  {
    MakeRandomPoint(m, draws[3 * i], draws[3 * i + 1], draws[3 * i + 2])
  }

  /// The page's module-level state that the motion path depends on.
  class App {
    /// Current flight time along the path.
    var flyTime: real
    /// The start and end points (empty before the first reset).
    var points: seq<Vec3>
    /// Positions of the start and end marker balls.
    var ballPositions: seq<Vec3>
    /// The current path, replaced on every reset.
    var motionPath: MotionPath?
    /// The flier's transform, written by `getMatrixAt` each tick.
    const flyMatrix: array<real>
    const math: MathFns
    const spline: Spline

    ghost predicate Valid()
      reads this, motionPath
    {
      0.0 <= flyTime < 1.0 &&
      |ballPositions| == 2 &&
      (|points| == 0 || |points| == 2) &&
      flyMatrix.Length == 16 &&
      (motionPath != null ==>
        motionPath.Valid() && motionPath.points == points &&
        motionPath.math == math && motionPath.spline == spline)
    }

    /// Loading the page: time 0, no points yet, both balls at the origin, the
    /// flier's matrix the identity; then a first reset.
    constructor (math: MathFns, spline: Spline, draws: seq<real>)
      requires |draws| == 6
      ensures this.math == math && this.spline == spline
      ensures Valid() && flyTime == 0.0
      ensures points == [EndpointFromDraws(math, draws, 0), EndpointFromDraws(math, draws, 1)]
      ensures ballPositions == points
      ensures motionPath != null && fresh(motionPath) && motionPath.points == points
      ensures fresh(flyMatrix)
      ensures Matrix4.IsAffine(flyMatrix[..], Vec3(1.0, 0.0, 0.0), Vec3(0.0, 1.0, 0.0), Vec3(0.0, 0.0, 1.0), Vec3(0.0, 0.0, 0.0))
    {
      flyTime := 0.0;
      points := [];
      ballPositions := [Vec3(0.0, 0.0, 0.0), Vec3(0.0, 0.0, 0.0)];
      motionPath := null;
      var identity := new real[16](i => if i % 5 == 0 then 1.0 else 0.0);
      assert identity[..] == [1.0, 0.0, 0.0, 0.0, 0.0, 1.0, 0.0, 0.0, 0.0, 0.0, 1.0, 0.0, 0.0, 0.0, 0.0, 1.0];
      flyMatrix := identity;
      this.math := math;
      this.spline := spline;
      new;
      ResetPoints(draws);
    }

    /// `update()`: advance the flight time and write the flier's frame at the
    /// new time into its matrix.
    method Update()
      requires Valid() && motionPath != null
      modifies this`flyTime, motionPath, flyMatrix
      ensures Valid() && motionPath == old(motionPath)
      ensures flyTime == Advance(old(flyTime))
      ensures motionPath.position == spline.pointAt(motionPath.curve, flyTime)
      ensures motionPath.forward == spline.tangentAt(motionPath.curve, flyTime)
      ensures motionPath.right == Cross(motionPath.forward, Up)
      ensures Matrix4.IsAffine(flyMatrix[..], motionPath.right, Up, motionPath.forward, motionPath.position)
    {
      // step the time forward, wrapping past 1
      var dt := Dt;
      flyTime := JsRemainderOne(flyTime + dt);

      // write the frame at the new time into the flier's matrix
      var _ := motionPath.GetMatrixAt(flyTime, flyMatrix);
    }

    /// `resetPoints()`: draws two new endpoints, moves the balls onto them and
    /// builds a new path from the first to the second.
    method ResetPoints(draws: seq<real>)
      requires Valid() && |draws| == 6
      modifies this`points, this`ballPositions, this`motionPath
      ensures Valid() && flyTime == old(flyTime)
      ensures points == [EndpointFromDraws(math, draws, 0), EndpointFromDraws(math, draws, 1)]
      ensures ballPositions == points
      ensures motionPath != null && fresh(motionPath) && motionPath.points == points
    {
      for i := 0 to 2
        invariant |ballPositions| == 2
        invariant i == 0 ==> |points| == 0 || |points| == 2
        invariant 0 < i ==> i <= |points| <= 2
        invariant forall k :: 0 <= k < i ==> points[k] == EndpointFromDraws(math, draws, k)
        invariant forall k :: 0 <= k < i ==> ballPositions[k] == points[k]
      {
        var p := MakeRandomPoint(math, draws[3 * i], draws[3 * i + 1], draws[3 * i + 2]);
        points := if i < |points| then points[i := p] else points + [p];
        ballPositions := ballPositions[i := p];
      }
      motionPath := new MotionPath(points[0], points[1], math, spline);
    }
  }
}
