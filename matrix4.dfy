/// The slice of three.js `Matrix4` that the motion path writes to: its 16
/// `elements`, stored column by column, filled by `makeBasis` and `setPosition`.
module Matrix4 {
  import opened Geometry

  /// Column `j` (0..3) of a 4x4 matrix stored column-major, without its bottom entry.
  function Column(e: seq<real>, j: nat): (v: Vec3)
    requires |e| == 16 && j < 4
  {
    Vec3(e[4 * j], e[4 * j + 1], e[4 * j + 2])
  }

  /// The affine transform with basis columns x, y, z and translation t:
  /// every one of the 16 entries is fixed by the four columns and the bottom row 0 0 0 1.
  ghost predicate IsAffine(e: seq<real>, x: Vec3, y: Vec3, z: Vec3, t: Vec3) {
    |e| == 16 &&
    Column(e, 0) == x && Column(e, 1) == y && Column(e, 2) == z && Column(e, 3) == t &&
    e[3] == 0.0 && e[7] == 0.0 && e[11] == 0.0 && e[15] == 1.0
  }

  /// `makeBasis(x, y, z)`: overwrites all 16 entries so that x, y, z are the
  /// first three columns, the translation is zero and the bottom row is 0 0 0 1.
  method MakeBasis(te: array<real>, x: Vec3, y: Vec3, z: Vec3)
    requires te.Length == 16
    modifies te
    ensures IsAffine(te[..], x, y, z, Vec3(0.0, 0.0, 0.0))
  {
    te[0], te[4], te[8], te[12] := x.x, y.x, z.x, 0.0;
    te[1], te[5], te[9], te[13] := x.y, y.y, z.y, 0.0;
    te[2], te[6], te[10], te[14] := x.z, y.z, z.z, 0.0;
    te[3], te[7], te[11], te[15] := 0.0, 0.0, 0.0, 1.0;
  }

  /// `setPosition(v)`: the translation column becomes v; nothing else changes.
  method SetPosition(te: array<real>, v: Vec3)
    requires te.Length == 16
    modifies te
    ensures te[..] == old(te[..])[12 := v.x][13 := v.y][14 := v.z]
    ensures Column(te[..], 3) == v
  {
    te[12], te[13], te[14] := v.x, v.y, v.z;
  }
}
