/**
 The view and projection constructions of the header: `look_at`, which
 moves world space into the camera's space, and `perspective`, the
 right-handed projection into clip space whose `w` row is `-1` in column 2.
 */
module Camera {
  import MathLib
  import Vector3
  import Vector4
  import Matrix4

  type Vec3 = Vector3.Vec3
  type Vec4 = Vector4.Vec4
  type Mat4 = Matrix4.Mat4

  /** The homogeneous point `(p, 1)`. */
  function Point(p: Vec3): Vec4 {
    Vector4.Vec4(p.x, p.y, p.z, 1.0)
  }

  /** The camera basis `look_at` builds: `right`, `real_up` and `direction`. */
  datatype Frame = Frame(right: Vec3, up: Vec3, direction: Vec3)

  /** Three mutually orthogonal unit vectors. */
  ghost predicate Orthonormal(f: Frame) {
    && Vector3.LengthSq(f.right) == 1.0
    && Vector3.LengthSq(f.up) == 1.0
    && Vector3.LengthSq(f.direction) == 1.0
    && Vector3.Dot(f.right, f.up) == 0.0
    && Vector3.Dot(f.right, f.direction) == 0.0
    && Vector3.Dot(f.up, f.direction) == 0.0
  }

  /**
   The basis of `look_at`: `direction` points from the target back to the
   eye, `right` is `up x direction` and `real_up` is `direction x right`,
   each normalised. The header leaves a camera looking along `up` (or an
   eye on its target) to IEEE arithmetic; here it is excluded.
   */
  function CameraFrame(sqrt: real -> real, eye: Vec3, target: Vec3, up: Vec3): (f: Frame)
    requires MathLib.IsSqrt(sqrt)
    requires Vector3.Cross(up, Vector3.Sub(eye, target)) != Vector3.Zero
    ensures Orthonormal(f)
    ensures Vector3.Cross(f.right, f.up) == f.direction
    ensures Vector3.Scale(f.direction, sqrt(Vector3.LengthSq(Vector3.Sub(eye, target)))) == Vector3.Sub(eye, target)
    ensures Vector3.Dot(f.right, up) == 0.0 && 0.0 < Vector3.Dot(f.up, up)
  {
    var back := Vector3.Sub(eye, target);
    Vector3.CrossNonZeroOperands(up, back);
    var direction := Vector3.Normalize(sqrt, back);
    var len := sqrt(Vector3.LengthSq(back));
    Vector3.CrossScaleRight(up, direction, len);
    Vector3.ScaleNonZero(Vector3.Cross(up, direction), len);
    var right := Vector3.Normalize(sqrt, Vector3.Cross(up, direction));
    assert Vector3.Dot(right, up) == 0.0 by {
      Vector3.CrossOrthogonal(up, direction);
      Vector3.NormalizeOrthogonal(sqrt, Vector3.Cross(up, direction), up);
    }
    Vector3.CrossOrthogonal(up, direction);
    Vector3.NormalizeOrthogonal(sqrt, Vector3.Cross(up, direction), direction);
    Vector3.Lagrange(direction, right);
    Vector3.CrossOrthogonal(direction, right);
    Vector3.NormalizeUnit(sqrt, Vector3.Cross(direction, right));
    var realUp := Vector3.Normalize(sqrt, Vector3.Cross(direction, right));
    RightHanded(direction, right);
    assert 0.0 < Vector3.Dot(realUp, up) by {
      var w := Vector3.Cross(up, direction);
      Vector3.NonZeroHasPositiveLength(w);
      MathLib.SqrtPositive(sqrt, Vector3.LengthSq(w));
      RealUpFacesUp(direction, up, right, sqrt(Vector3.LengthSq(w)));
    }
    Frame(right, realUp, direction)
  }

  /**
   With `right` the unit vector along `up x d`, `d x right` leans towards
   `up`: its dot product with `up` is the length of `up x d`.
   */
  lemma RealUpFacesUp(d: Vec3, up: Vec3, right: Vec3, len: real)
    requires 0.0 < len
    requires Vector3.Cross(up, d) != Vector3.Zero
    requires Vector3.Scale(right, len) == Vector3.Cross(up, d)
    ensures 0.0 < Vector3.Dot(Vector3.Cross(d, right), up)
  {
    var w := Vector3.Cross(up, d);
    Vector3.ScalarTripleCyclic(d, w, up);
    Vector3.NonZeroHasPositiveLength(w);
    Vector3.CrossScaleRight(d, right, len);
    Vector3.DotScaleLeft(Vector3.Cross(d, right), up, len);
    MathLib.PositiveFactor(Vector3.Dot(Vector3.Cross(d, right), up), len);
  }

  /** For orthonormal `d` and `r`, `r x (d x r) == d`. */
  lemma RightHanded(d: Vec3, r: Vec3)
    requires Vector3.LengthSq(r) == 1.0
    requires Vector3.Dot(r, d) == 0.0
    ensures Vector3.Cross(r, Vector3.Cross(d, r)) == d
  {
    Vector3.TripleProduct(r, d, r);
  }

  /** The rotation block of `look_at`: the basis vectors laid out as rows. */
  function ViewRotation(f: Frame): (m: Mat4)
    ensures Matrix4.Row(m, 0) == Vector4.Vec4(f.right.x, f.right.y, f.right.z, 0.0)
    ensures Matrix4.Row(m, 1) == Vector4.Vec4(f.up.x, f.up.y, f.up.z, 0.0)
    ensures Matrix4.Row(m, 2) == Vector4.Vec4(f.direction.x, f.direction.y, f.direction.z, 0.0)
    ensures Matrix4.Row(m, 3) == Vector4.Vec4(0.0, 0.0, 0.0, 1.0)
  {
    Matrix4.Mat4(Vector4.Vec4(f.right.x, f.up.x, f.direction.x, 0.0),
                 Vector4.Vec4(f.right.y, f.up.y, f.direction.y, 0.0),
                 Vector4.Vec4(f.right.z, f.up.z, f.direction.z, 0.0),
                 Vector4.Vec4(0.0, 0.0, 0.0, 1.0))
  }

  /** The translation block of `look_at`: identity columns and `(-eye, 1)` as column 3. */
  function Translation(eye: Vec3): (m: Mat4)
    ensures forall p: Vec3 :: Matrix4.Apply(m, Point(p)) == Point(Vector3.Sub(p, eye))
  {
    Matrix4.Mat4(Vector4.Vec4(1.0, 0.0, 0.0, 0.0),
                 Vector4.Vec4(0.0, 1.0, 0.0, 0.0),
                 Vector4.Vec4(0.0, 0.0, 1.0, 0.0),
                 Vector4.Vec4(-eye.x, -eye.y, -eye.z, 1.0))
  }

  /** The rotation block reads off the coordinates of a vector along the basis. */
  lemma ApplyViewRotation(f: Frame, v: Vec3)
    ensures Matrix4.Apply(ViewRotation(f), Point(v))
         == Vector4.Vec4(Vector3.Dot(f.right, v), Vector3.Dot(f.up, v), Vector3.Dot(f.direction, v), 1.0)
  {
  }

  /** `look_at(position, target, up)`: translate by `-position`, then rotate into the camera basis. */
  function LookAt(sqrt: real -> real, eye: Vec3, target: Vec3, up: Vec3): (m: Mat4)
    requires MathLib.IsSqrt(sqrt)
    requires Vector3.Cross(up, Vector3.Sub(eye, target)) != Vector3.Zero
    ensures Matrix4.Row(m, 3) == Vector4.Vec4(0.0, 0.0, 0.0, 1.0)
    ensures forall p: Vec3 :: Matrix4.Apply(m, Point(p)) == CameraCoordinates(CameraFrame(sqrt, eye, target, up), eye, p)
  {
    var f := CameraFrame(sqrt, eye, target, up);
    var m := Matrix4.Mul(ViewRotation(f), Translation(eye));
    Matrix4.MulEntries(ViewRotation(f), Translation(eye));
    assert Matrix4.Row(m, 3) == Vector4.Vec4(0.0, 0.0, 0.0, 1.0) by {
      assert Matrix4.Col(Translation(eye), 0).w == 0.0;
      Vector4.Extensionality(Matrix4.Row(m, 3), Vector4.Vec4(0.0, 0.0, 0.0, 1.0));
    }
    forall p: Vec3
      ensures Matrix4.Apply(m, Point(p)) == CameraCoordinates(f, eye, p)
    {
      Matrix4.ApplyMul(ViewRotation(f), Translation(eye), Point(p));
      ApplyViewRotation(f, Vector3.Sub(p, eye));
    }
    m
  }

  /** The camera-space coordinates of `p`: its offset from the eye measured along each basis vector. */
  function CameraCoordinates(f: Frame, eye: Vec3, p: Vec3): Vec4 {
    var d := Vector3.Sub(p, eye);
    Vector4.Vec4(Vector3.Dot(f.right, d), Vector3.Dot(f.up, d), Vector3.Dot(f.direction, d), 1.0)
  }

  /** The view matrix sends the eye to the origin. */
  lemma LookAtEyeToOrigin(sqrt: real -> real, eye: Vec3, target: Vec3, up: Vec3)
    requires MathLib.IsSqrt(sqrt)
    requires Vector3.Cross(up, Vector3.Sub(eye, target)) != Vector3.Zero
    ensures Matrix4.Apply(LookAt(sqrt, eye, target, up), Point(eye)) == Vector4.Vec4(0.0, 0.0, 0.0, 1.0)
  {
    assert Vector3.Sub(eye, eye) == Vector3.Zero;
  }

  /** The view matrix puts the target straight ahead, on the negative z axis at its distance from the eye. */
  lemma LookAtTargetAhead(sqrt: real -> real, eye: Vec3, target: Vec3, up: Vec3)
    requires MathLib.IsSqrt(sqrt)
    requires Vector3.Cross(up, Vector3.Sub(eye, target)) != Vector3.Zero
    ensures Matrix4.Apply(LookAt(sqrt, eye, target, up), Point(target))
         == Vector4.Vec4(0.0, 0.0, -sqrt(Vector3.LengthSq(Vector3.Sub(eye, target))), 1.0)
  {
    var f := CameraFrame(sqrt, eye, target, up);
    var len := sqrt(Vector3.LengthSq(Vector3.Sub(eye, target)));
    var d := Vector3.Sub(target, eye);
    assert d == Vector3.Scale(f.direction, -len);
    Vector3.DotScaleLeft(f.direction, f.right, -len);
    Vector3.DotScaleLeft(f.direction, f.up, -len);
    Vector3.DotScaleLeft(f.direction, f.direction, -len);
    assert Vector3.Dot(f.right, d) == 0.0;
    assert Vector3.Dot(f.up, d) == 0.0;
    assert Vector3.Dot(f.direction, d) == -len;
  }

  /**
   A camera one unit in front of its target along z, with `up` along y,
   already has the world axes as its basis: `look_at` is the pure
   translation by `-eye`.
   */
  lemma LookAtAxisAligned(sqrt: real -> real, eye: Vec3)
    requires MathLib.IsSqrt(sqrt)
    ensures var target := Vector3.Vec3(eye.x, eye.y, eye.z - 1.0);
      var up := Vector3.Vec3(0.0, 1.0, 0.0);
      Vector3.Cross(up, Vector3.Sub(eye, target)) != Vector3.Zero
      && LookAt(sqrt, eye, target, up) == Translation(eye)
  {
    var target, up := Vector3.Vec3(eye.x, eye.y, eye.z - 1.0), Vector3.Vec3(0.0, 1.0, 0.0);
    AxisAlignedFrame(sqrt, eye);
    var f := CameraFrame(sqrt, eye, target, up);
    ViewRotationOfAxes(f);
    LookAtProduct(sqrt, eye, target, up);
    Matrix4.MulIdentityLeft(Translation(eye));
  }

  /** `look_at` is the rotation block times the translation. */
  lemma LookAtProduct(sqrt: real -> real, eye: Vec3, target: Vec3, up: Vec3)
    requires MathLib.IsSqrt(sqrt)
    requires Vector3.Cross(up, Vector3.Sub(eye, target)) != Vector3.Zero
    ensures LookAt(sqrt, eye, target, up) == Matrix4.Mul(ViewRotation(CameraFrame(sqrt, eye, target, up)), Translation(eye))
  {
  }

  /** The world axes as a basis give the identity rotation block. */
  lemma ViewRotationOfAxes(f: Frame)
    requires f == Frame(Vector3.Vec3(1.0, 0.0, 0.0), Vector3.Vec3(0.0, 1.0, 0.0), Vector3.Vec3(0.0, 0.0, 1.0))
    ensures ViewRotation(f) == Matrix4.Identity()
  {
  }

  /** The basis `look_at` builds for the axis-aligned camera above is the world axes. */
  lemma AxisAlignedFrame(sqrt: real -> real, eye: Vec3)
    requires MathLib.IsSqrt(sqrt)
    ensures var target := Vector3.Vec3(eye.x, eye.y, eye.z - 1.0);
      var up := Vector3.Vec3(0.0, 1.0, 0.0);
      Vector3.Cross(up, Vector3.Sub(eye, target)) != Vector3.Zero
      && CameraFrame(sqrt, eye, target, up) == Frame(Vector3.Vec3(1.0, 0.0, 0.0), up, Vector3.Vec3(0.0, 0.0, 1.0))
  {
    var target, up := Vector3.Vec3(eye.x, eye.y, eye.z - 1.0), Vector3.Vec3(0.0, 1.0, 0.0);
    var ex, ez := Vector3.Vec3(1.0, 0.0, 0.0), Vector3.Vec3(0.0, 0.0, 1.0);
    assert Vector3.Sub(eye, target) == ez;
    AxisCrossX();
    AxisCrossY();
    UnitAxis(ex);
    UnitAxis(up);
    UnitAxis(ez);
    Vector3.NormalizeUnit(sqrt, ez);
    Vector3.NormalizeUnit(sqrt, ex);
    Vector3.NormalizeUnit(sqrt, up);
  }

  lemma AxisCrossX()
    ensures Vector3.Cross(Vector3.Vec3(0.0, 1.0, 0.0), Vector3.Vec3(0.0, 0.0, 1.0)) == Vector3.Vec3(1.0, 0.0, 0.0)
  {
  }

  lemma AxisCrossY()
    ensures Vector3.Cross(Vector3.Vec3(0.0, 0.0, 1.0), Vector3.Vec3(1.0, 0.0, 0.0)) == Vector3.Vec3(0.0, 1.0, 0.0)
  {
  }

  lemma UnitAxis(v: Vec3)
    requires v == Vector3.Vec3(1.0, 0.0, 0.0) || v == Vector3.Vec3(0.0, 1.0, 0.0) || v == Vector3.Vec3(0.0, 0.0, 1.0)
    ensures Vector3.LengthSq(v) == 1.0
  {
  }

  // ----- perspective -----

  /**
   `perspective(fov, aspect_ratio, near, far)`: starting from the zero
   matrix, five entries are written in the header's order. The divisions
   need a non-degenerate depth range and a non-zero `aspect_ratio * tan(fov / 2)`.
   */
  function Perspective(tan: real -> real, fov: real, aspect: real, near: real, far: real): (m: Mat4)
    requires far - near != 0.0
    requires aspect * tan(fov / 2.0) != 0.0
    ensures Matrix4.Entry(m, 0, 0) * (aspect * tan(fov / 2.0)) == 1.0
    ensures Matrix4.Entry(m, 1, 1) * tan(fov / 2.0) == 1.0
    ensures Matrix4.Entry(m, 2, 2) * (far - near) == -(far + near)
    ensures Matrix4.Entry(m, 3, 2) == -1.0
    ensures Matrix4.Entry(m, 2, 3) * (far - near) == -(2.0 * far * near)
    ensures forall row, col :: 0 <= row < 4 && 0 <= col < 4 && !IsProjectionSlot(row, col) ==> Matrix4.Entry(m, row, col) == 0.0
  {
    var tanHalf := tan(fov / 2.0);
    var sum := far + near;
    var sub := far - near;
    var m := Matrix4.Zero;
    var m := Matrix4.SetEntry(m, 2, 2, -sum / sub);
    var m := Matrix4.SetEntry(m, 2, 3, -1.0);
    var m := Matrix4.SetEntry(m, 3, 2, -(2.0 * far * near) / sub);
    var m := Matrix4.SetEntry(m, 0, 0, 1.0 / (aspect * tanHalf));
    var m := Matrix4.SetEntry(m, 1, 1, 1.0 / tanHalf);
    m
  }

  /**
   A 90 degree field of view (`tan(fov / 2) == 1`) with a square aspect
   ratio gives unit scale on both x and y.
   */
  lemma PerspectiveRightAngle(tan: real -> real, fov: real, near: real, far: real)
    requires far - near != 0.0
    requires tan(fov / 2.0) == 1.0
    ensures 1.0 * tan(fov / 2.0) != 0.0
    ensures var m := Perspective(tan, fov, 1.0, near, far);
      Matrix4.Entry(m, 0, 0) == 1.0 && Matrix4.Entry(m, 1, 1) == 1.0 && Matrix4.Entry(m, 3, 2) == -1.0
  {
    assert 1.0 * tan(fov / 2.0) == 1.0;
  }

  /** The (row, column) positions `perspective` writes. */
  predicate IsProjectionSlot(row: int, col: int) {
    (row == 0 && col == 0) || (row == 1 && col == 1) || (row == 2 && col == 2)
      || (row == 3 && col == 2) || (row == 2 && col == 3)
  }

  /** The clip-space image of a camera-space point: `w` is the depth `-z`, and `x`, `y`, `z` are the projected coordinates scaled by it. */
  lemma PerspectiveClip(tan: real -> real, fov: real, aspect: real, near: real, far: real, p: Vec3)
    requires far - near != 0.0
    requires aspect * tan(fov / 2.0) != 0.0
    ensures var c := Matrix4.Apply(Perspective(tan, fov, aspect, near, far), Point(p));
      && c.w == -p.z
      && c.x * (aspect * tan(fov / 2.0)) == p.x
      && c.y * tan(fov / 2.0) == p.y
      && c.z * (far - near) == -(far + near) * p.z - 2.0 * far * near
  {
    var m := Perspective(tan, fov, aspect, near, far);
    var a, b, e, d := Matrix4.Entry(m, 0, 0), Matrix4.Entry(m, 1, 1), Matrix4.Entry(m, 2, 2), Matrix4.Entry(m, 2, 3);
    assert !IsProjectionSlot(1, 0) && !IsProjectionSlot(2, 0) && !IsProjectionSlot(3, 0);
    assert !IsProjectionSlot(0, 1) && !IsProjectionSlot(2, 1) && !IsProjectionSlot(3, 1);
    assert !IsProjectionSlot(0, 2) && !IsProjectionSlot(1, 2);
    assert !IsProjectionSlot(0, 3) && !IsProjectionSlot(1, 3) && !IsProjectionSlot(3, 3);
    assert m == Matrix4.Mat4(Vector4.Vec4(a, 0.0, 0.0, 0.0), Vector4.Vec4(0.0, b, 0.0, 0.0),
                             Vector4.Vec4(0.0, 0.0, e, -1.0), Vector4.Vec4(0.0, 0.0, d, 0.0));
    var c := Matrix4.Apply(m, Point(p));
    assert c == Vector4.Vec4(a * p.x, b * p.y, e * p.z + d, -p.z);
    calc {
      c.z * (far - near);
      (e * p.z + d) * (far - near);
      (e * (far - near)) * p.z + d * (far - near);
      -(far + near) * p.z - 2.0 * far * near;
    }
  }

  /**
   The depth row of `perspective` as an equation between the camera-space
   `pz` and the clip-space `z`: the near plane goes to `-near`, the far
   plane to `far`, and depths in between stay within `[-depth, depth]`.
   */
  lemma DepthRow(near: real, far: real, pz: real, z: real)
    requires far - near != 0.0
    requires z * (far - near) == -(far + near) * pz - 2.0 * far * near
    ensures pz == -near ==> z == -near
    ensures pz == -far ==> z == far
    ensures 0.0 < near < far && near <= -pz <= far ==> -(-pz) <= z <= -pz
  {
    if pz == -near {
      calc {
        z * (far - near);
        -(far + near) * (-near) - 2.0 * far * near;
        near * near - far * near;
        -near * (far - near);
      }
      MathLib.CancelFactor(z, -near, far - near);
    }
    if pz == -far {
      calc {
        z * (far - near);
        -(far + near) * (-far) - 2.0 * far * near;
        far * far - far * near;
        far * (far - near);
      }
      MathLib.CancelFactor(z, far, far - near);
    }
    if 0.0 < near < far && near <= -pz <= far {
      var depth := -pz;
      calc {
        (z - depth) * (far - near);
        z * (far - near) - depth * (far - near);
        (far + near) * depth - 2.0 * far * near - depth * (far - near);
        (2.0 * near) * (depth - far);
      }
      MathLib.ProductSign(depth - far, 2.0 * near);
      MathLib.SignOfFactor(z - depth, far - near);
      calc {
        (-(z + depth)) * (far - near);
        -(z * (far - near)) - depth * (far - near);
        -((far + near) * depth - 2.0 * far * near) - depth * (far - near);
        (2.0 * far) * (near - depth);
      }
      MathLib.ProductSign(near - depth, 2.0 * far);
      MathLib.SignOfFactor(-(z + depth), far - near);
    }
  }

  /** A point on the near plane lands on the near face of the clip volume (`z == -w`). */
  lemma PerspectiveNearPlane(tan: real -> real, fov: real, aspect: real, near: real, far: real, p: Vec3)
    requires far - near != 0.0
    requires aspect * tan(fov / 2.0) != 0.0
    requires p.z == -near
    ensures var c := Matrix4.Apply(Perspective(tan, fov, aspect, near, far), Point(p));
      c.w == near && c.z == -near
  {
    PerspectiveClip(tan, fov, aspect, near, far, p);
    var c := Matrix4.Apply(Perspective(tan, fov, aspect, near, far), Point(p));
    DepthRow(near, far, p.z, c.z);
  }

  /** A point on the far plane lands on the far face of the clip volume (`z == w`). */
  lemma PerspectiveFarPlane(tan: real -> real, fov: real, aspect: real, near: real, far: real, p: Vec3)
    requires far - near != 0.0
    requires aspect * tan(fov / 2.0) != 0.0
    requires p.z == -far
    ensures var c := Matrix4.Apply(Perspective(tan, fov, aspect, near, far), Point(p));
      c.w == far && c.z == far
  {
    PerspectiveClip(tan, fov, aspect, near, far, p);
    var c := Matrix4.Apply(Perspective(tan, fov, aspect, near, far), Point(p));
    DepthRow(near, far, p.z, c.z);
  }

  /**
   With `0 < near < far`, every point whose depth lies between the planes
   passes the depth clip test `-w <= z <= w`.
   */
  lemma PerspectiveDepthInRange(tan: real -> real, fov: real, aspect: real, near: real, far: real, p: Vec3)
    requires 0.0 < near < far
    requires aspect * tan(fov / 2.0) != 0.0
    requires near <= -p.z <= far
    ensures var c := Matrix4.Apply(Perspective(tan, fov, aspect, near, far), Point(p));
      -c.w <= c.z <= c.w
  {
    PerspectiveClip(tan, fov, aspect, near, far, p);
    var c := Matrix4.Apply(Perspective(tan, fov, aspect, near, far), Point(p));
    DepthRow(near, far, p.z, c.z);
  }
}
