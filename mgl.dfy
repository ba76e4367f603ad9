/** Real-valued counterparts of the mgl32 vector and matrix values the renderer
    uses, the handful of matrix constructors it calls, and a record of the
    library routines (trigonometry, normalisation, look-at, perspective) whose
    internals are not modelled: those are carried as function values, so every
    property that depends on them says which of their values it assumes. */
module Mgl {

  datatype Vec3 = Vec3(x: real, y: real, z: real)

  datatype Vec4 = Vec4(x: real, y: real, z: real, w: real)

  function Add(a: Vec3, b: Vec3): Vec3 { Vec3(a.x + b.x, a.y + b.y, a.z + b.z) }

  function Sub(a: Vec3, b: Vec3): Vec3 { Vec3(a.x - b.x, a.y - b.y, a.z - b.z) }

  /** Vec3.Mul: scaling by a scalar. */
  function Scaled(a: Vec3, k: real): Vec3 { Vec3(a.x * k, a.y * k, a.z * k) }

  function Cross(a: Vec3, b: Vec3): Vec3
  {
    Vec3(a.y * b.z - a.z * b.y, a.z * b.x - a.x * b.z, a.x * b.y - a.y * b.x)
  }

  /** A 4x4 matrix, stored by rows: m[r][c] is the entry in row r, column c. */
  type Row = r: seq<real> | |r| == 4 witness ZeroRow
  type Mat4 = m: seq<Row> | |m| == 4 witness [ZeroRow, ZeroRow, ZeroRow, ZeroRow]

  const ZeroRow: seq<real> := [0.0, 0.0, 0.0, 0.0]

  function Cell(a: Mat4, b: Mat4, i: nat, j: nat): real
    requires i < 4 && j < 4
  {
    a[i][0] * b[0][j] + a[i][1] * b[1][j] + a[i][2] * b[2][j] + a[i][3] * b[3][j]
  }

  function ProductRow(a: Mat4, b: Mat4, i: nat): Row
    requires i < 4
  {
    [Cell(a, b, i, 0), Cell(a, b, i, 1), Cell(a, b, i, 2), Cell(a, b, i, 3)]
  }

  /** Mat4.Mul4: the matrix product a x b. */
  function Mul4(a: Mat4, b: Mat4): Mat4
  {
    [ProductRow(a, b, 0), ProductRow(a, b, 1), ProductRow(a, b, 2), ProductRow(a, b, 3)]
  }

  /** Mat4.Mul4x1: the matrix applied to a column vector. */
  function Apply(m: Mat4, v: Vec4): Vec4
  {
    Vec4(m[0][0] * v.x + m[0][1] * v.y + m[0][2] * v.z + m[0][3] * v.w,
         m[1][0] * v.x + m[1][1] * v.y + m[1][2] * v.z + m[1][3] * v.w,
         m[2][0] * v.x + m[2][1] * v.y + m[2][2] * v.z + m[2][3] * v.w,
         m[3][0] * v.x + m[3][1] * v.y + m[3][2] * v.z + m[3][3] * v.w)
  }

  function Column(m: Mat4, j: nat): Vec4
    requires j < 4
  {
    Vec4(m[0][j], m[1][j], m[2][j], m[3][j])
  }

  function Ident4(): Mat4
  {
    [[1.0, 0.0, 0.0, 0.0], [0.0, 1.0, 0.0, 0.0], [0.0, 0.0, 1.0, 0.0], [0.0, 0.0, 0.0, 1.0]]
  }

  function Translate3D(x: real, y: real, z: real): Mat4
  {
    [[1.0, 0.0, 0.0, x], [0.0, 1.0, 0.0, y], [0.0, 0.0, 1.0, z], [0.0, 0.0, 0.0, 1.0]]
  }

  function Scale3D(x: real, y: real, z: real): Mat4
  {
    [[x, 0.0, 0.0, 0.0], [0.0, y, 0.0, 0.0], [0.0, 0.0, z, 0.0], [0.0, 0.0, 0.0, 1.0]]
  }

  /** Two matrices are equal when their sixteen entries are. */
  lemma Entrywise(a: Mat4, b: Mat4)
    requires a[0][0] == b[0][0] && a[0][1] == b[0][1] && a[0][2] == b[0][2] && a[0][3] == b[0][3]
    requires a[1][0] == b[1][0] && a[1][1] == b[1][1] && a[1][2] == b[1][2] && a[1][3] == b[1][3]
    requires a[2][0] == b[2][0] && a[2][1] == b[2][1] && a[2][2] == b[2][2] && a[2][3] == b[2][3]
    requires a[3][0] == b[3][0] && a[3][1] == b[3][1] && a[3][2] == b[3][2] && a[3][3] == b[3][3]
    ensures a == b
  {
    assert a[0] == b[0];
    assert a[1] == b[1];
    assert a[2] == b[2];
    assert a[3] == b[3];
  }

  /** The value of pi the degree conversion uses. */
  const Pi: real := 3.141592653589793

  function DegToRad(angle: real): real { angle * Pi / 180.0 }

  /** The library routines the renderer calls whose internals are not modelled:
      math.Cos, math.Sin (on radians), Vec3.Normalize, mgl32.LookAtV(eye, center, up)
      and mgl32.Perspective(fovy, aspect, near, far). */
  datatype MathLib = MathLib(
    cos: real -> real,
    sin: real -> real,
    normalize: Vec3 -> Vec3,
    lookAt: (Vec3, Vec3, Vec3) -> Mat4,
    perspective: (real, real, real, real) -> Mat4)

  /** mgl32.HomogRotate3DY: rotation by `angle` radians about the Y axis. */
  function HomogRotate3DY(lib: MathLib, angle: real): Mat4
  {
    var c, s := lib.cos(angle), lib.sin(angle);
    [[c, 0.0, s, 0.0], [0.0, 1.0, 0.0, 0.0], [-s, 0.0, c, 0.0], [0.0, 0.0, 0.0, 1.0]]
  }
}
