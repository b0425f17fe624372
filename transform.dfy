/** WireframeViewer.rotation_matrix and the way keyEvent applies its matrix to a 3-vector:
    append a homogeneous 1, left-multiply by the 4x4 matrix, keep the first three entries. */
module Transform {
  import opened Geometry

  /** The trigonometry numpy supplies, left abstract: cosDeg(a) stands for np.cos(np.radians(a))
      and sinDeg(a) for np.sin(np.radians(a)), with the angle a in degrees. */
  datatype Trig = Trig(cosDeg: real -> real, sinDeg: real -> real)

  /** The principal axes, with the index of their row and column in a matrix. */
  datatype Axis = X | Y | Z {
    function Index(): (i: nat)
      ensures i < 3
    {
      match this
      case X => 0
      case Y => 1
      case Z => 2
    }
  }

  type Mat4 = seq<seq<real>>

  predicate IsMat4(m: Mat4) {
    |m| == 4 && forall i :: 0 <= i < 4 ==> |m[i]| == 4
  }

  /** Last row and last column are [0, 0, 0, 1]: no translation, the homogeneous 1 is kept. */
  predicate Homogeneous(m: Mat4)
    requires IsMat4(m)
  {
    forall i :: 0 <= i < 4 ==> m[3][i] == (if i == 3 then 1.0 else 0.0) && m[i][3] == (if i == 3 then 1.0 else 0.0)
  }

  /** Row a and column a of m are both the unit vector along a: m rotates about that axis. */
  predicate FixesAxis(m: Mat4, a: nat)
    requires IsMat4(m) && a < 4
  {
    forall j :: 0 <= j < 4 ==> m[a][j] == (if j == a then 1.0 else 0.0) && m[j][a] == (if j == a then 1.0 else 0.0)
  }

  /** The matrix of one branch of rotation_matrix, for the cosine c and sine s of its angle. */
  function TurnMatrix(axis: Axis, c: real, s: real): (m: Mat4)
    ensures IsMat4(m)
  {
    match axis
    case X => [[1.0, 0.0, 0.0, 0.0], [0.0, c, -s, 0.0], [0.0, s, c, 0.0], [0.0, 0.0, 0.0, 1.0]]
    case Y => [[c, 0.0, s, 0.0], [0.0, 1.0, 0.0, 0.0], [-s, 0.0, c, 0.0], [0.0, 0.0, 0.0, 1.0]]
    case Z => [[c, -s, 0.0, 0.0], [s, c, 0.0, 0.0], [0.0, 0.0, 1.0, 0.0], [0.0, 0.0, 0.0, 1.0]]
  }

  /** The matrix of one branch of rotation_matrix: a rotation by deg degrees about one axis. */
  function AxisMatrix(t: Trig, axis: Axis, deg: real): (m: Mat4)
    ensures IsMat4(m) && Homogeneous(m)
    ensures FixesAxis(m, axis.Index())
  {
    TurnMatrix(axis, t.cosDeg(deg), t.sinDeg(deg))
  }

  /** What rotation_matrix returns: a matrix, or the "error" sentinel string. */
  datatype Rotation = Matrix(m: Mat4) | Error

  /** rotation_matrix(x, y, z): a rotation about ONE axis, chosen by priority x, then y, then z;
      the other angles are ignored. All three zero gives the "error" sentinel. */
  function RotationMatrix(t: Trig, x: real, y: real, z: real): (r: Rotation)
    ensures r.Error? <==> x == 0.0 && y == 0.0 && z == 0.0
    ensures r.Matrix? ==> IsMat4(r.m) && Homogeneous(r.m)
    ensures x != 0.0 ==> r == Matrix(AxisMatrix(t, X, x))
    ensures x == 0.0 && y != 0.0 ==> r == Matrix(AxisMatrix(t, Y, y))
    ensures x == 0.0 && y == 0.0 && z != 0.0 ==> r == Matrix(AxisMatrix(t, Z, z))
  {
    if x != 0.0 then Matrix(AxisMatrix(t, X, x))
    else if y != 0.0 then Matrix(AxisMatrix(t, Y, y))
    else if z != 0.0 then Matrix(AxisMatrix(t, Z, z))
    else Error
  }

  function RowTimes(row: seq<real>, h: seq<real>): real
    requires |row| == 4 && |h| == 4
  {
    row[0] * h[0] + row[1] * h[1] + row[2] * h[2] + row[3] * h[3]
  }

  /** np.matmul(m, [*v, 1])[:3] */
  function Apply(m: Mat4, v: Vec3): Vec3
    requires IsMat4(m)
  {
    var h := [v.x, v.y, v.z, 1.0];
    Vec3(RowTimes(m[0], h), RowTimes(m[1], h), RowTimes(m[2], h))
  }

  function Coord(v: Vec3, a: Axis): real {
    match a
    case X => v.x
    case Y => v.y
    case Z => v.z
  }

  /** Any homogeneous matrix that fixes an axis leaves that coordinate of a vector unchanged. */
  lemma ApplyKeepsAxis(m: Mat4, a: Axis, v: Vec3)
    requires IsMat4(m) && Homogeneous(m) && FixesAxis(m, a.Index())
    ensures Coord(Apply(m, v), a) == Coord(v, a)
  {
    var h := [v.x, v.y, v.z, 1.0];
    var i := a.Index();
    assert m[i] == [if i == 0 then 1.0 else 0.0, if i == 1 then 1.0 else 0.0, if i == 2 then 1.0 else 0.0, 0.0];
  }

  /** The plane rotation of (p, q) by (c, s) = (cos, sin): (c p - s q, s p + c q). */
  function Plane(c: real, s: real, p: real, q: real): (real, real) {
    (c * p - s * q, s * p + c * q)
  }

  /** A turn by (c, s) about one axis: x keeps x and turns (y, z), y keeps y and turns (z, x),
      z keeps z and turns (x, y). */
  function Turn(axis: Axis, c: real, s: real, v: Vec3): Vec3 {
    match axis
    case X => var (y, z) := Plane(c, s, v.y, v.z); Vec3(v.x, y, z)
    case Y => var (z, x) := Plane(c, s, v.z, v.x); Vec3(x, v.y, z)
    case Z => var (x, y) := Plane(c, s, v.x, v.y); Vec3(x, y, v.z)
  }

  lemma ApplyXMatrix(c: real, s: real, v: Vec3)
    ensures Apply(TurnMatrix(X, c, s), v) == Turn(X, c, s, v)
  {
  }

  lemma ApplyYMatrix(c: real, s: real, v: Vec3)
    ensures Apply(TurnMatrix(Y, c, s), v) == Turn(Y, c, s, v)
  {
  }

  lemma ApplyZMatrix(c: real, s: real, v: Vec3)
    ensures Apply(TurnMatrix(Z, c, s), v) == Turn(Z, c, s, v)
  {
  }

  /** The matrix of each branch of rotation_matrix acts on a vector as the turn by its angle. */
  lemma AxisMatrixAction(t: Trig, axis: Axis, deg: real, v: Vec3)
    ensures Apply(AxisMatrix(t, axis, deg), v) == Turn(axis, t.cosDeg(deg), t.sinDeg(deg), v)
  {
    var c, s := t.cosDeg(deg), t.sinDeg(deg);
    match axis
    case X => ApplyXMatrix(c, s, v);
    case Y => ApplyYMatrix(c, s, v);
    case Z => ApplyZMatrix(c, s, v);
  }

  /** A plane rotation by (c, s) with c^2 + s^2 == 1 keeps the squared length of (p, q). */
  lemma PlaneKeepsLength(c: real, s: real, p: real, q: real)
    requires c * c + s * s == 1.0
    ensures var (p1, q1) := Plane(c, s, p, q); p1 * p1 + q1 * q1 == p * p + q * q
  {
    calc {
      (c * p - s * q) * (c * p - s * q) + (s * p + c * q) * (s * p + c * q);
      (c * c + s * s) * (p * p) + (c * c + s * s) * (q * q);
      p * p + q * q;
    }
  }

  /** If cos^2 + sin^2 == 1 at the angle, the rotation preserves the squared length of every vector
      (so a unit light vector stays a unit vector). */
  lemma {:induction false} RotationKeepsLength(t: Trig, axis: Axis, deg: real, v: Vec3)
    requires t.cosDeg(deg) * t.cosDeg(deg) + t.sinDeg(deg) * t.sinDeg(deg) == 1.0
    ensures NormSq(Apply(AxisMatrix(t, axis, deg), v)) == NormSq(v)
  {
    var c, s := t.cosDeg(deg), t.sinDeg(deg);
    AxisMatrixAction(t, axis, deg, v);
    match axis
    case X => PlaneKeepsLength(c, s, v.y, v.z);
    case Y => PlaneKeepsLength(c, s, v.z, v.x);
    case Z => PlaneKeepsLength(c, s, v.x, v.y);
  }

  /** Turning (p, q) by (c, s) and then by (c, -s) gives back (p, q) when c^2 + s^2 == 1. */
  lemma PlaneUndone(c: real, s: real, p: real, q: real)
    requires c * c + s * s == 1.0
    ensures var (p1, q1) := Plane(c, s, p, q); Plane(c, -s, p1, q1) == (p, q)
  {
    var (p1, q1) := Plane(c, s, p, q);
    calc {
      c * p1 - (-s) * q1;
      (c * c + s * s) * p;
      p;
    }
    calc {
      (-s) * p1 + c * q1;
      (c * c + s * s) * q;
      q;
    }
  }

  /** A turn by (c, s) followed by a turn by (c, -s) about the same axis is the identity. */
  lemma {:induction false} TurnUndone(axis: Axis, c: real, s: real, v: Vec3)
    requires c * c + s * s == 1.0
    ensures Turn(axis, c, -s, Turn(axis, c, s, v)) == v
  {
    match axis
    case X => PlaneUndone(c, s, v.y, v.z);
    case Y => PlaneUndone(c, s, v.z, v.x);
    case Z => PlaneUndone(c, s, v.x, v.y);
  }

  /** The matrix of a turn by (c, -s) undoes the matrix of the turn by (c, s). */
  lemma {:induction false} TurnMatrixUndone(axis: Axis, c: real, s: real, v: Vec3)
    requires c * c + s * s == 1.0
    ensures Apply(TurnMatrix(axis, c, -s), Apply(TurnMatrix(axis, c, s), v)) == v
  {
    var w := Apply(TurnMatrix(axis, c, s), v);
    match axis {
      case X => ApplyXMatrix(c, s, v); ApplyXMatrix(c, -s, w);
      case Y => ApplyYMatrix(c, s, v); ApplyYMatrix(c, -s, w);
      case Z => ApplyZMatrix(c, s, v); ApplyZMatrix(c, -s, w);
    }
    TurnUndone(axis, c, s, v);
  }

  /** Rotating by deg and then by -deg about the same axis restores the vector, given that the
      abstract cosine is even, the sine odd, and cos^2 + sin^2 == 1 at deg. */
  lemma {:induction false} RotationUndone(t: Trig, axis: Axis, deg: real, v: Vec3)
    requires t.cosDeg(-deg) == t.cosDeg(deg) && t.sinDeg(-deg) == -t.sinDeg(deg)
    requires t.cosDeg(deg) * t.cosDeg(deg) + t.sinDeg(deg) * t.sinDeg(deg) == 1.0
    ensures Apply(AxisMatrix(t, axis, -deg), Apply(AxisMatrix(t, axis, deg), v)) == v
  {
    var c, s := t.cosDeg(deg), t.sinDeg(deg);
    assert AxisMatrix(t, axis, -deg) == TurnMatrix(axis, c, -s);
    TurnMatrixUndone(axis, c, s, v);
  }
}
