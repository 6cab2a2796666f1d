# Butterfly motion path, modelled in Dafny

This project models the flight-path core of the "butterfly" demo: the
`ButterflyMotionPath` class and the parts of the demo page (`main.js`) that feed it.

- **Path construction** (`initCurve`). Both endpoints are taken to horizontal polar
  form `(angle, radius)` with `atan2`/`hypot` of their x and z. The end angle is
  moved by a whole turn when the two angles are more than half a turn apart, so the
  path takes the shorter way round the vertical axis. Then exactly 100 samples are
  built. Sample `i` sits at time `u = i/99`. Its angle, radius and height are each
  linearly interpolated at `u`.
- **Frame assembly** (`getMatrixAt`). The spline gives a position and a tangent.
  `right = forward x up`, with `up` fixed at (0, 1, 0). The caller's 4x4 matrix gets
  `right, up, forward` as its basis columns and the position as its translation.
- **Demo page**. Each tick moves the flight time forward by 0.005 and wraps it
  modulo 1. A random endpoint has radius in [10, 200) and height in [20, 100). A
  reset draws two endpoints, puts the marker balls on them and builds a new path
  from the first to the second.

Modules:

- `Geometry`: `Vec3`, dot and cross products, and `Lerp`. The source defines
  `lerp` twice, identically (`ButterflyMotionPath.js:9` and `main.js:12`). Both
  uses go through `Geometry.Lerp`.
- `JsMath`: `Math.PI`, the four transcendental functions as a `MathFns` record of
  function values, the named laws they are assumed to obey, and JavaScript's `% 1`.
- `Matrix4`: the 16 column-major `elements` that `makeBasis` and `setPosition` write.
- `ButterflyMotionPath`: the path construction and the `MotionPath` class.
- `Demo`: `main.js`'s time advance, random points, and the `App` state with
  `Update` and `ResetPoints`.

All numbers are exact reals. Each trigonometric property names the law it needs:
`Atan2Range`, `HypotNorm`, `UnitCircle`, `Periodic` or `PolarRoundTrip`.

The code has none of the following, and neither does the model:

- The code adds no oscillation offset to the samples.
- It applies no roll about `forward`.
- It does not normalise `right`.
- It does not recompute `up`, so the basis is not orthonormal in general.
- It has no special case for radius-0 endpoints.
- It has no fallback when `forward` is vertical. `RightOfForward` shows that
  `right` is then the zero vector.

## Model

| member | source | states |
|---|---|---|
| Geometry.Lerp | ButterflyMotionPath.js:9 | at 0 it is `a`, at 1 it is `b`, and for a parameter in [0, 1] it lies between `a` and `b` |
| Geometry.LerpMonotone | ButterflyMotionPath.js:9 | interpolation is strictly increasing (or decreasing) in the parameter when the ends differ |
| ButterflyMotionPath.ToPolar | ButterflyMotionPath.js:4-7 | the angle is in (-PI, PI], the radius is the non-negative norm of (x, z), and the polar form converts back to (x, z) |
| ButterflyMotionPath.ShortestArc | ButterflyMotionPath.js:29-33 | the end angle moves by exactly -2*PI, 0 or +2*PI: up by 2*PI when the difference is below -PI, down by 2*PI when it is above PI; it is left unchanged exactly when the difference is within [-PI, PI], so a difference of exactly PI stays; for angles from `atan2` the corrected difference is at most PI |
| ButterflyMotionPath.ArcEnds | ButterflyMotionPath.js:26-33 | the start polar form and both radii are those of `toPolar`; after the correction the end angle is within half a turn of the start angle |
| ButterflyMotionPath.ArcEndsDirection | ButterflyMotionPath.js:32 | the correction does not change the cos or sin of the end angle |
| ButterflyMotionPath.SampleParam | ButterflyMotionPath.js:35-38 | `u_i = i/99` is in [0, 1], with `u_0 = 0` and `u_99 = 1` |
| ButterflyMotionPath.SampleParamIncreasing | ButterflyMotionPath.js:37-38 | the sample times are strictly increasing |
| ButterflyMotionPath.LerpArc | ButterflyMotionPath.js:46-51 | the height is the start height at u = 0 and the end height at u = 1, and between them for u in [0, 1] |
| ButterflyMotionPath.LerpArcRadius | ButterflyMotionPath.js:47-50 | the computed point is at the interpolated radius from the vertical axis (x^2 + z^2 = r^2) |
| ButterflyMotionPath.ArcSamples | ButterflyMotionPath.js:35-42 | exactly 100 samples; the first has the start's height and the last the end's; every height lies between the two |
| ButterflyMotionPath.ArcStartsAtStart | ButterflyMotionPath.js:26-50 | the first sample is exactly the start point |
| ButterflyMotionPath.ArcEndsAtEnd | ButterflyMotionPath.js:26-50 | the last sample is exactly the end point, whichever way the correction turned the end angle |
| ButterflyMotionPath.SampleRadius | ButterflyMotionPath.js:48 | each sample's interpolated radius lies between the endpoint radii, so it is non-negative |
| ButterflyMotionPath.ArcSampleRadius | ButterflyMotionPath.js:47-50 | each sample's distance from the vertical axis is its interpolated radius |
| ButterflyMotionPath.ArcSweepMonotone | ButterflyMotionPath.js:31-47 | the sample angles move monotonically from the start angle to the corrected end angle |
| ButterflyMotionPath.RightOfForward | ButterflyMotionPath.js:58 | `forward x (0,1,0) = (-f.z, 0, f.x)`; it is perpendicular to forward and to up, and zero when forward is vertical |
| ButterflyMotionPath.MotionPath.constructor | ButterflyMotionPath.js:12-23 | points are `[start, end]`, up is (0, 1, 0), and the curve is built from the samples |
| ButterflyMotionPath.MotionPath.InitCurve | ButterflyMotionPath.js:25-44 | the in-place correction and the push loop leave exactly the 100 samples of `ArcSamples` in the curve |
| ButterflyMotionPath.MotionPath.GetMatrixAt | ButterflyMotionPath.js:54-62 | position and forward come from the spline at `time`, and `right = forward x up`; the matrix has columns right, up, forward and translation position; it returns the same matrix; points, curve and up are unchanged |
| Matrix4.MakeBasis | ButterflyMotionPath.js:59 | all 16 entries are overwritten: the three basis columns, a zero translation and the bottom row 0 0 0 1 |
| Matrix4.SetPosition | ButterflyMotionPath.js:60 | only the translation column changes, and it becomes the position |
| JsMath.JsRemainderOne | main.js:95 | `a % 1` keeps the sign of `a`, is less than 1 in magnitude, and differs from `a` by a whole number |
| Demo.Advance | main.js:94-95 | from a time in [0, 1) the next time is in [0, 1); it is `t + 0.005` below 1 and `t + 0.005 - 1` otherwise |
| Demo.RandomAngle | main.js:102 | a draw in [0, 1) gives an angle in [0, 2*PI) |
| Demo.RandomRadius | main.js:103 | a draw in [0, 1) gives a radius in [10, 200) |
| Demo.RandomHeight | main.js:106 | a draw in [0, 1) gives a height in [20, 100) |
| Demo.MakeRandomPoint | main.js:101-109 | the height of a random point is in [20, 100) |
| Demo.RandomPointOnCircle | main.js:102-108 | a random point has x^2 + z^2 = r^2 for its random radius r, so 100 <= x^2 + z^2 < 40000 |
| Demo.App.constructor | main.js:44-74 | loading the page starts at time 0 and does a first reset: the two drawn points, the balls on them, and a fresh path from the first to the second, built with the given math functions and spline; the flier's matrix is freshly allocated and is the identity |
| Demo.App.Update | main.js:92-99 | the flight time becomes `Advance` of the old one and stays in [0, 1); the flier's matrix receives the frame at the new time |
| Demo.App.ResetPoints | main.js:111-122 | exactly two points are drawn, three draws each, in order; ball `i` is placed at point `i`; a fresh path runs from `points[0]` to `points[1]`; the flight time is untouched |

## Left out

- Floating point: every number is an exact real. So the step 0.005 and `i/99`
  are exact here, not IEEE doubles.
- `Math.atan2`, `Math.hypot`, `Math.cos`, `Math.sin`: these are function values.
  The model assumes only the laws named in `JsMath`, and only where a contract
  names them. These laws describe an idealised trigonometry in which `PI`
  (3.141592653589793) is exactly half a turn. Real atan2 can return the true pi,
  which is above that literal, and real cos and sin do not repeat after
  2 * 3.141592653589793. So the exact arrival at the end point (`ArcEndsAtEnd`)
  holds for real trigonometry only when the shortest-arc correction does not fire.
- `CatmullRomCurve3`, `getPointAt` and `getTangentAt`: the spline is a `Spline`
  record of functions of the samples and the time, and the model assumes nothing
  about them. So nothing is stated about tangent length or about the spline
  passing through the samples.
- `Matrix4`: only the 16 entries that `makeBasis` and `setPosition` write are
  modelled. The rest of three.js is not part of this model.
- `Vector3` objects are values here. JavaScript shares one object between
  `points[i]` and the path's `points`, and reuses the scratch vectors in place.
  The model does not capture that aliasing, only the values.
- `Math.random`: its draws are parameters, in the order the source makes them.
- Rendering and input are not modelled. This covers scene, lights, grid, meshes,
  camera, renderer, orbit controls, resize, the Space-key handler that calls
  `resetPoints`, the `requestAnimationFrame` loop, and the debug polyline
  (`setFromPoints(curve.getPoints(100))`, main.js:125).
