/**
 `m4_rotate(x_rad, y_rad, z_rad)`: three elemental rotations, each written
 into a copy of the identity only when its angle is non-zero, composed as
 `r_x * r_y * r_z`. The x and y factors follow the right-hand rule; the z
 factor is written with the signs of its sine entries exchanged, so for a
 positive angle it turns the x axis towards negative y.
 */
module Rotation {
  import MathLib
  import Vector4
  import Matrix4

  type Vec4 = Vector4.Vec4
  type Mat4 = Matrix4.Mat4

  /** The unit vectors along the x, y and z axes. */
  const EX: Vec4 := Vector4.Vec4(1.0, 0.0, 0.0, 0.0)
  const EY: Vec4 := Vector4.Vec4(0.0, 1.0, 0.0, 0.0)
  const EZ: Vec4 := Vector4.Vec4(0.0, 0.0, 1.0, 0.0)

  /** The four entries an elemental rotation about `axis` overwrites in the identity. */
  predicate InPlane(axis: Axis, row: int, col: int) {
    match axis
    case X => 1 <= row <= 2 && 1 <= col <= 2
    case Y => (row == 0 || row == 2) && (col == 0 || col == 2)
    case Z => 0 <= row <= 1 && 0 <= col <= 1
  }

  /**
   The x factor: `cos` and `sin` written into the (y, z) block of the
   identity, with `-sin` above the diagonal; every other entry is the
   identity's.
   */
  function RotX(sin: real -> real, cos: real -> real, a: real): (m: Mat4)
    ensures Matrix4.Entry(m, 1, 1) == cos(a) && Matrix4.Entry(m, 1, 2) == -sin(a)
    ensures Matrix4.Entry(m, 2, 1) == sin(a) && Matrix4.Entry(m, 2, 2) == cos(a)
    ensures forall row, col :: 0 <= row < 4 && 0 <= col < 4 && !InPlane(X, row, col) ==>
      Matrix4.Entry(m, row, col) == Matrix4.Entry(Matrix4.Identity(), row, col)
  {
    var m := Matrix4.Identity();
    var m := Matrix4.SetEntry(m, 1, 1, cos(a));
    var m := Matrix4.SetEntry(m, 2, 1, -sin(a));
    var m := Matrix4.SetEntry(m, 1, 2, sin(a));
    var m := Matrix4.SetEntry(m, 2, 2, cos(a));
    m
  }

  /**
   The y factor: `cos` and `sin` written into the (x, z) block of the
   identity, with `-sin` below the diagonal; every other entry is the
   identity's.
   */
  function RotY(sin: real -> real, cos: real -> real, a: real): (m: Mat4)
    ensures Matrix4.Entry(m, 0, 0) == cos(a) && Matrix4.Entry(m, 2, 0) == -sin(a)
    ensures Matrix4.Entry(m, 0, 2) == sin(a) && Matrix4.Entry(m, 2, 2) == cos(a)
    ensures forall row, col :: 0 <= row < 4 && 0 <= col < 4 && !InPlane(Y, row, col) ==>
      Matrix4.Entry(m, row, col) == Matrix4.Entry(Matrix4.Identity(), row, col)
  {
    var m := Matrix4.Identity();
    var m := Matrix4.SetEntry(m, 0, 0, cos(a));
    var m := Matrix4.SetEntry(m, 0, 2, -sin(a));
    var m := Matrix4.SetEntry(m, 2, 0, sin(a));
    var m := Matrix4.SetEntry(m, 2, 2, cos(a));
    m
  }

  /**
   The z factor: `cos` and `sin` written into the (x, y) block of the
   identity, with `-sin` below the diagonal; every other entry is the
   identity's.
   */
  function RotZ(sin: real -> real, cos: real -> real, a: real): (m: Mat4)
    ensures Matrix4.Entry(m, 0, 0) == cos(a) && Matrix4.Entry(m, 1, 0) == -sin(a)
    ensures Matrix4.Entry(m, 0, 1) == sin(a) && Matrix4.Entry(m, 1, 1) == cos(a)
    ensures forall row, col :: 0 <= row < 4 && 0 <= col < 4 && !InPlane(Z, row, col) ==>
      Matrix4.Entry(m, row, col) == Matrix4.Entry(Matrix4.Identity(), row, col)
  {
    var m := Matrix4.Identity();
    var m := Matrix4.SetEntry(m, 0, 0, cos(a));
    var m := Matrix4.SetEntry(m, 0, 1, -sin(a));
    var m := Matrix4.SetEntry(m, 1, 0, sin(a));
    var m := Matrix4.SetEntry(m, 1, 1, cos(a));
    m
  }

  lemma RotXClosedForm(sin: real -> real, cos: real -> real, a: real)
    ensures RotX(sin, cos, a) == XMatrix(sin(a), cos(a))
  {
    Matrix4.Extensionality(RotX(sin, cos, a), XMatrix(sin(a), cos(a)));
  }

  lemma RotYClosedForm(sin: real -> real, cos: real -> real, a: real)
    ensures RotY(sin, cos, a) == YMatrix(sin(a), cos(a))
  {
    Matrix4.Extensionality(RotY(sin, cos, a), YMatrix(sin(a), cos(a)));
  }

  lemma RotZClosedForm(sin: real -> real, cos: real -> real, a: real)
    ensures RotZ(sin, cos, a) == ZMatrix(sin(a), cos(a))
  {
    Matrix4.Extensionality(RotZ(sin, cos, a), ZMatrix(sin(a), cos(a)));
  }

  // The closed forms of the three factors for a sine value `s` and a cosine value `c`.

  function XMatrix(s: real, c: real): Mat4 {
    Matrix4.Mat4(Vector4.Vec4(1.0, 0.0, 0.0, 0.0), Vector4.Vec4(0.0, c, s, 0.0),
                 Vector4.Vec4(0.0, -s, c, 0.0), Vector4.Vec4(0.0, 0.0, 0.0, 1.0))
  }

  function YMatrix(s: real, c: real): Mat4 {
    Matrix4.Mat4(Vector4.Vec4(c, 0.0, -s, 0.0), Vector4.Vec4(0.0, 1.0, 0.0, 0.0),
                 Vector4.Vec4(s, 0.0, c, 0.0), Vector4.Vec4(0.0, 0.0, 0.0, 1.0))
  }

  function ZMatrix(s: real, c: real): Mat4 {
    Matrix4.Mat4(Vector4.Vec4(c, -s, 0.0, 0.0), Vector4.Vec4(s, c, 0.0, 0.0),
                 Vector4.Vec4(0.0, 0.0, 1.0, 0.0), Vector4.Vec4(0.0, 0.0, 0.0, 1.0))
  }

  lemma ApplyXMatrix(s: real, c: real, v: Vec4)
    ensures Matrix4.Apply(XMatrix(s, c), v) == Vector4.Vec4(v.x, c * v.y - s * v.z, s * v.y + c * v.z, v.w)
  {
  }

  lemma ApplyYMatrix(s: real, c: real, v: Vec4)
    ensures Matrix4.Apply(YMatrix(s, c), v) == Vector4.Vec4(c * v.x + s * v.z, v.y, -s * v.x + c * v.z, v.w)
  {
  }

  lemma ApplyZMatrix(s: real, c: real, v: Vec4)
    ensures Matrix4.Apply(ZMatrix(s, c), v) == Vector4.Vec4(c * v.x + s * v.y, -s * v.x + c * v.y, v.z, v.w)
  {
  }

  /** The x factor applied to any vector: a turn in the (y, z) plane. */
  lemma ApplyRotX(sin: real -> real, cos: real -> real, a: real, v: Vec4)
    ensures Matrix4.Apply(RotX(sin, cos, a), v) ==
      Vector4.Vec4(v.x, cos(a) * v.y - sin(a) * v.z, sin(a) * v.y + cos(a) * v.z, v.w)
  {
    ElementalClosedForm(sin, cos, X, a);
    ApplyXMatrix(sin(a), cos(a), v);
  }

  /** The y factor applied to any vector: a turn in the (z, x) plane. */
  lemma ApplyRotY(sin: real -> real, cos: real -> real, a: real, v: Vec4)
    ensures Matrix4.Apply(RotY(sin, cos, a), v) ==
      Vector4.Vec4(cos(a) * v.x + sin(a) * v.z, v.y, -sin(a) * v.x + cos(a) * v.z, v.w)
  {
    ElementalClosedForm(sin, cos, Y, a);
    ApplyYMatrix(sin(a), cos(a), v);
  }

  /** The z factor applied to any vector: a turn in the (x, y) plane, clockwise seen from positive z. */
  lemma ApplyRotZ(sin: real -> real, cos: real -> real, a: real, v: Vec4)
    ensures Matrix4.Apply(RotZ(sin, cos, a), v) ==
      Vector4.Vec4(cos(a) * v.x + sin(a) * v.y, -sin(a) * v.x + cos(a) * v.y, v.z, v.w)
  {
    ElementalClosedForm(sin, cos, Z, a);
    ApplyZMatrix(sin(a), cos(a), v);
  }

  /** The three axes of `m4_rotate`. */
  datatype Axis = X | Y | Z

  /** The factor for one axis as `m4_rotate` builds it: the identity when the angle is zero. */
  function Factor(sin: real -> real, cos: real -> real, axis: Axis, a: real): Mat4
  {
    if a == 0.0 then Matrix4.Identity() else Elemental(sin, cos, axis, a)
  }

  /** The elemental rotation about `axis`, written unconditionally. */
  function Elemental(sin: real -> real, cos: real -> real, axis: Axis, a: real): Mat4 {
    match axis
    case X => RotX(sin, cos, a)
    case Y => RotY(sin, cos, a)
    case Z => RotZ(sin, cos, a)
  }

  /** Each elemental rotation is the closed form for `sin(a)` and `cos(a)`. */
  lemma ElementalClosedForm(sin: real -> real, cos: real -> real, axis: Axis, a: real)
    ensures Elemental(sin, cos, axis, a) == ClosedForm(axis, sin(a), cos(a))
  {
    match axis
    case X => RotXClosedForm(sin, cos, a);
    case Y => RotYClosedForm(sin, cos, a);
    case Z => RotZClosedForm(sin, cos, a);
  }

  function ClosedForm(axis: Axis, s: real, c: real): Mat4 {
    match axis
    case X => XMatrix(s, c)
    case Y => YMatrix(s, c)
    case Z => ZMatrix(s, c)
  }

  /** `m4_rotate(x, y, z)`: the product `r_x * r_y`, then multiplied by `r_z`. */
  function M4Rotate(sin: real -> real, cos: real -> real, x: real, y: real, z: real): (m: Mat4)
    ensures forall v: Vec4 ::
      Matrix4.Apply(m, v) == Matrix4.Apply(Factor(sin, cos, X, x), Matrix4.Apply(Factor(sin, cos, Y, y), Matrix4.Apply(Factor(sin, cos, Z, z), v)))
  {
    var rx, ry, rz := Factor(sin, cos, X, x), Factor(sin, cos, Y, y), Factor(sin, cos, Z, z);
    var tot := Matrix4.Mul(rx, ry);
    var tot := Matrix4.Mul(tot, rz);
    forall v: Vec4
      ensures Matrix4.Apply(tot, v) == Matrix4.Apply(rx, Matrix4.Apply(ry, Matrix4.Apply(rz, v)))
    {
      Matrix4.ApplyMul(Matrix4.Mul(rx, ry), rz, v);
      Matrix4.ApplyMul(rx, ry, Matrix4.Apply(rz, v));
    }
    tot
  }

  /** All three angles zero: `m4_rotate` returns the identity. */
  lemma M4RotateZero(sin: real -> real, cos: real -> real)
    ensures M4Rotate(sin, cos, 0.0, 0.0, 0.0) == Matrix4.Identity()
  {
    Matrix4.MulIdentityLeft(Matrix4.Identity());
  }

  /** A zero angle drops its factor: `m4_rotate` then applies only the other two. */
  lemma M4RotateSkipsZero(sin: real -> real, cos: real -> real, x: real, y: real, z: real, v: Vec4)
    ensures x == 0.0 ==>
      Matrix4.Apply(M4Rotate(sin, cos, x, y, z), v) == Matrix4.Apply(Factor(sin, cos, Y, y), Matrix4.Apply(Factor(sin, cos, Z, z), v))
    ensures y == 0.0 ==>
      Matrix4.Apply(M4Rotate(sin, cos, x, y, z), v) == Matrix4.Apply(Factor(sin, cos, X, x), Matrix4.Apply(Factor(sin, cos, Z, z), v))
    ensures z == 0.0 ==>
      Matrix4.Apply(M4Rotate(sin, cos, x, y, z), v) == Matrix4.Apply(Factor(sin, cos, X, x), Matrix4.Apply(Factor(sin, cos, Y, y), v))
  {
    var rz := Matrix4.Apply(Factor(sin, cos, Z, z), v);
    Matrix4.ApplyIdentity(Matrix4.Apply(Factor(sin, cos, Y, y), rz));
    Matrix4.ApplyIdentity(rz);
    Matrix4.ApplyIdentity(v);
  }

  /**
   Skipping a zero angle changes nothing when `sin` and `cos` are exact at
   zero: every factor equals its elemental rotation.
   */
  lemma FactorIsElemental(sin: real -> real, cos: real -> real, axis: Axis, a: real)
    requires MathLib.ExactAtZero(sin, cos)
    ensures Factor(sin, cos, axis, a) == Elemental(sin, cos, axis, a)
  {
    if a == 0.0 {
      ElementalClosedForm(sin, cos, axis, 0.0);
    }
  }

  /** The columns of `m` are mutually orthogonal unit vectors. */
  ghost predicate OrthonormalColumns(m: Mat4) {
    forall i, j :: 0 <= i < 4 && 0 <= j < 4 ==>
      Vector4.Dot(Matrix4.Col(m, i), Matrix4.Col(m, j)) == if i == j then 1.0 else 0.0
  }

  /** Orthonormal columns make a matrix orthogonal. */
  lemma OrthonormalColumnsOrthogonal(m: Mat4)
    requires OrthonormalColumns(m)
    ensures Matrix4.Orthogonal(m)
  {
    var p := Matrix4.Mul(Matrix4.Transpose(m), m);
    Matrix4.MulEntries(Matrix4.Transpose(m), m);
    forall row, col | 0 <= row < 4 && 0 <= col < 4
      ensures Matrix4.Entry(p, row, col) == Matrix4.Entry(Matrix4.Identity(), row, col)
    {
      Vector4.Extensionality(Matrix4.Row(Matrix4.Transpose(m), row), Matrix4.Col(m, row));
    }
    Matrix4.Extensionality(p, Matrix4.Identity());
  }

  /** Every elemental rotation is orthogonal when `sin` and `cos` satisfy the Pythagorean identity. */
  lemma ElementalOrthogonal(sin: real -> real, cos: real -> real, axis: Axis, a: real)
    requires MathLib.IsSinCos(sin, cos)
    ensures Matrix4.Orthogonal(Elemental(sin, cos, axis, a))
  {
    ElementalClosedForm(sin, cos, axis, a);
    ClosedFormOrthonormal(axis, sin(a), cos(a));
    OrthonormalColumnsOrthogonal(ClosedForm(axis, sin(a), cos(a)));
  }

  /** With `s * s + c * c == 1` the closed forms have orthonormal columns. */
  lemma ClosedFormOrthonormal(axis: Axis, s: real, c: real)
    requires s * s + c * c == 1.0
    ensures OrthonormalColumns(ClosedForm(axis, s, c))
  {
    var m := ClosedForm(axis, s, c);
    forall i, j | 0 <= i < 4 && 0 <= j < 4
      ensures Vector4.Dot(Matrix4.Col(m, i), Matrix4.Col(m, j)) == if i == j then 1.0 else 0.0
    {
    }
  }

  /** Each factor of `m4_rotate` is orthogonal, whether or not its angle is zero. */
  lemma FactorOrthogonal(sin: real -> real, cos: real -> real, axis: Axis, a: real)
    requires MathLib.IsSinCos(sin, cos)
    ensures Matrix4.Orthogonal(Factor(sin, cos, axis, a))
  {
    if a == 0.0 {
      Matrix4.MulIdentityLeft(Matrix4.Identity());
    } else {
      ElementalOrthogonal(sin, cos, axis, a);
    }
  }

  /** `m4_rotate` always returns an orthogonal matrix. */
  lemma M4RotateOrthogonal(sin: real -> real, cos: real -> real, x: real, y: real, z: real)
    requires MathLib.IsSinCos(sin, cos)
    ensures Matrix4.Orthogonal(M4Rotate(sin, cos, x, y, z))
  {
    var rx, ry, rz := Factor(sin, cos, X, x), Factor(sin, cos, Y, y), Factor(sin, cos, Z, z);
    FactorOrthogonal(sin, cos, X, x);
    FactorOrthogonal(sin, cos, Y, y);
    FactorOrthogonal(sin, cos, Z, z);
    Matrix4.OrthogonalMul(rx, ry);
    Matrix4.OrthogonalMul(Matrix4.Mul(rx, ry), rz);
  }

  /** `m4_rotate` preserves lengths: the squared length of every vector is unchanged. */
  lemma M4RotatePreservesLength(sin: real -> real, cos: real -> real, x: real, y: real, z: real, v: Vec4)
    requires MathLib.IsSinCos(sin, cos)
    ensures Vector4.LengthSq(Matrix4.Apply(M4Rotate(sin, cos, x, y, z), v)) == Vector4.LengthSq(v)
  {
    M4RotateOrthogonal(sin, cos, x, y, z);
    Matrix4.OrthogonalPreservesDot(M4Rotate(sin, cos, x, y, z), v, v);
  }

  /**
   Quarter turns (`sin(a) == 1`, `cos(a) == 0`): the x factor takes the y
   axis to the z axis and the y factor the z axis to the x axis, as the
   right-hand rule has it, while the z factor takes the x axis to the
   negative y axis, the opposite of the right-hand rule.
   */
  lemma QuarterTurns(sin: real -> real, cos: real -> real, a: real)
    requires sin(a) == 1.0 && cos(a) == 0.0
    ensures Matrix4.Apply(RotX(sin, cos, a), EY) == EZ
    ensures Matrix4.Apply(RotY(sin, cos, a), EZ) == EX
    ensures Matrix4.Apply(RotZ(sin, cos, a), EX) == Vector4.Scale(EY, -1.0)
  {
    assert Matrix4.Apply(RotX(sin, cos, a), EY) == EZ by {
      RotXClosedForm(sin, cos, a);
      ApplyXMatrix(1.0, 0.0, EY);
    }
    assert Matrix4.Apply(RotY(sin, cos, a), EZ) == EX by {
      RotYClosedForm(sin, cos, a);
      ApplyYMatrix(1.0, 0.0, EZ);
    }
    assert Matrix4.Apply(RotZ(sin, cos, a), EX) == Vector4.Scale(EY, -1.0) by {
      RotZClosedForm(sin, cos, a);
      ApplyZMatrix(1.0, 0.0, EX);
    }
  }

  /**
   `m4_rotate` with a quarter turn about x alone takes the y axis to the z
   axis: the y and z factors are skipped and only the x factor acts.
   */
  lemma M4RotateQuarterX(sin: real -> real, cos: real -> real, a: real)
    requires a != 0.0
    requires sin(a) == 1.0 && cos(a) == 0.0
    ensures Matrix4.Apply(M4Rotate(sin, cos, a, 0.0, 0.0), EY) == EZ
  {
    Matrix4.ApplyIdentity(EY);
    QuarterTurns(sin, cos, a);
  }

  /**
   The order of the factors matters: at a quarter turn about both x and z,
   `m4_rotate`'s order `r_x * r_z` and the reverse order send the x axis to
   different places.
   */
  lemma RotationOrderMatters(sin: real -> real, cos: real -> real, a: real)
    requires sin(a) == 1.0 && cos(a) == 0.0
    ensures Matrix4.Mul(RotX(sin, cos, a), RotZ(sin, cos, a)) != Matrix4.Mul(RotZ(sin, cos, a), RotX(sin, cos, a))
  {
    var rx, rz := RotX(sin, cos, a), RotZ(sin, cos, a);
    Matrix4.ApplyMul(rx, rz, EX);
    Matrix4.ApplyMul(rz, rx, EX);
    ApplyRotX(sin, cos, a, Matrix4.Apply(rz, EX));
    assert Matrix4.Apply(Matrix4.Mul(rx, rz), EX) == Vector4.Scale(EZ, -1.0);
    assert Matrix4.Apply(Matrix4.Mul(rz, rx), EX) == Vector4.Scale(EY, -1.0);
  }
}
