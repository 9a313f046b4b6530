/**
 The three-component vector of the header (`vector3_t`): component-wise
 arithmetic, scalar broadcast, the compound assignments, `normalize` and
 the right-handed `cross` product. Components are reals; the union's
 `v[]` array view is the function `At`.
 */
module Vector3 {
  import MathLib

  datatype Vec3 = Vec3(x: real, y: real, z: real)

  const Zero: Vec3 := Vec3(0.0, 0.0, 0.0)

  /** The indexed view `v[i]` of the named components. */
  function At(v: Vec3, i: int): real
    requires 0 <= i < 3
  {
    if i == 0 then v.x else if i == 1 then v.y else v.z
  }

  function Add(a: Vec3, b: Vec3): Vec3
  {
    Vec3(a.x + b.x, a.y + b.y, a.z + b.z)
  }

  function Sub(a: Vec3, b: Vec3): Vec3
  {
    Vec3(a.x - b.x, a.y - b.y, a.z - b.z)
  }

  /** The Hadamard (component-wise) product, not the dot product. */
  function Mul(a: Vec3, b: Vec3): Vec3
  {
    Vec3(a.x * b.x, a.y * b.y, a.z * b.z)
  }

  /** `v * scalar`: the scalar is broadcast to every component. */
  function Scale(v: Vec3, s: real): Vec3
  {
    Vec3(v.x * s, v.y * s, v.z * s)
  }

  /** `v / scalar`: every component is divided by the scalar. */
  function DivScalar(v: Vec3, s: real): Vec3
    requires s != 0.0
  {
    Vec3(v.x / s, v.y / s, v.z / s)
  }

  function Dot(a: Vec3, b: Vec3): real {
    a.x * b.x + a.y * b.y + a.z * b.z
  }

  function LengthSq(v: Vec3): real {
    Dot(v, v)
  }

  /** `cross(a, b)`, the right-handed cross product. */
  function Cross(a: Vec3, b: Vec3): Vec3
  {
    Vec3(a.y * b.z - a.z * b.y,
         a.z * b.x - a.x * b.z,
         a.x * b.y - a.y * b.x)
  }

  /**
   `normalize(v)`: `v` divided by its Euclidean length `sqrt(|v|^2)`.
   The header leaves the zero vector to IEEE arithmetic; here it is excluded.
   */
  function Normalize(sqrt: real -> real, v: Vec3): (r: Vec3)
    requires MathLib.IsSqrt(sqrt)
    requires v != Zero
    ensures LengthSq(r) == 1.0
    ensures Scale(r, sqrt(LengthSq(v))) == v
  {
    var len := sqrt(LengthSq(v));
    NonZeroHasPositiveLength(v);
    MathLib.SqrtPositive(sqrt, LengthSq(v));
    var r := DivScalar(v, len);
    assert Scale(r, len) == v;
    calc {
      LengthSq(r) * LengthSq(v);
      { assert len * len == LengthSq(v); }
      LengthSq(r) * (len * len);
      { LengthSqScale(r, len); }
      LengthSq(Scale(r, len));
      LengthSq(v);
    }
    MathLib.UnitFactor(LengthSq(r), LengthSq(v));
    r
  }

  /** Only the zero vector has squared length zero. */
  lemma NonZeroHasPositiveLength(v: Vec3)
    ensures v != Zero <==> 0.0 < LengthSq(v)
  {
    calc {
      LengthSq(v);
      MathLib.Square(v.x) + MathLib.Square(v.y) + MathLib.Square(v.z);
    }
    MathLib.SquareSign(v.x);
    MathLib.SquareSign(v.y);
    MathLib.SquareSign(v.z);
  }

  /** Scaling by `k` multiplies the squared length by `k * k`. */
  lemma LengthSqScale(v: Vec3, k: real)
    ensures LengthSq(Scale(v, k)) == LengthSq(v) * (k * k)
  {
    calc {
      LengthSq(Scale(v, k));
      (v.x * k) * (v.x * k) + (v.y * k) * (v.y * k) + (v.z * k) * (v.z * k);
      LengthSq(v) * (k * k);
    }
  }

  // ----- compound assignments: the receiver is updated one field at a time -----

  /** `v += o`: leaves the receiver equal to `v + o` and returns it. */
  method AddAssign(v: Vec3, o: Vec3) returns (updated: Vec3, returned: Vec3)
    ensures updated == Add(v, o) && returned == updated
  {
    updated := v;
    updated := updated.(x := updated.x + o.x);
    updated := updated.(y := updated.y + o.y);
    updated := updated.(z := updated.z + o.z);
    returned := updated;
  }

  /** `v -= o`: leaves the receiver equal to `v - o` and returns it. */
  method SubAssign(v: Vec3, o: Vec3) returns (updated: Vec3, returned: Vec3)
    ensures updated == Sub(v, o) && returned == updated
  {
    updated := v;
    updated := updated.(x := updated.x - o.x);
    updated := updated.(y := updated.y - o.y);
    updated := updated.(z := updated.z - o.z);
    returned := updated;
  }

  /** `v *= o` (vector): leaves the receiver equal to the Hadamard product. */
  method MulAssign(v: Vec3, o: Vec3) returns (updated: Vec3, returned: Vec3)
    ensures updated == Mul(v, o) && returned == updated
  {
    updated := v;
    updated := updated.(x := updated.x * o.x);
    updated := updated.(y := updated.y * o.y);
    updated := updated.(z := updated.z * o.z);
    returned := updated;
  }

  /** `v /= o` (vector): undoes a Hadamard product by `o`. */
  method DivAssign(v: Vec3, o: Vec3) returns (updated: Vec3, returned: Vec3)
    requires o.x != 0.0 && o.y != 0.0 && o.z != 0.0
    ensures Mul(updated, o) == v && returned == updated
  {
    updated := v;
    updated := updated.(x := updated.x / o.x);
    updated := updated.(y := updated.y / o.y);
    updated := updated.(z := updated.z / o.z);
    returned := updated;
  }

  /** `v *= s` (scalar): leaves the receiver equal to `v * s`. */
  method ScaleAssign(v: Vec3, s: real) returns (updated: Vec3, returned: Vec3)
    ensures updated == Scale(v, s) && returned == updated
  {
    updated := v;
    updated := updated.(x := updated.x * s);
    updated := updated.(y := updated.y * s);
    updated := updated.(z := updated.z * s);
    returned := updated;
  }

  /** `v /= s` (scalar): undoes a scaling by `s`. */
  method DivScalarAssign(v: Vec3, s: real) returns (updated: Vec3, returned: Vec3)
    requires s != 0.0
    ensures Scale(updated, s) == v && returned == updated
  {
    updated := v;
    updated := updated.(x := updated.x / s);
    updated := updated.(y := updated.y / s);
    updated := updated.(z := updated.z / s);
    returned := updated;
  }

  // ----- algebraic laws -----

  /** Every operator acts index by index on the `v[]` view. */
  lemma ComponentWise(a: Vec3, b: Vec3, s: real)
    ensures forall i :: 0 <= i < 3 ==> At(Add(a, b), i) == At(a, i) + At(b, i)
    ensures forall i :: 0 <= i < 3 ==> At(Sub(a, b), i) == At(a, i) - At(b, i)
    ensures forall i :: 0 <= i < 3 ==> At(Mul(a, b), i) == At(a, i) * At(b, i)
    ensures forall i :: 0 <= i < 3 ==> At(Scale(a, s), i) == At(a, i) * s
    ensures s != 0.0 ==> forall i :: 0 <= i < 3 ==> At(DivScalar(a, s), i) * s == At(a, i)
  {
  }

  /** Subtraction undoes addition. */
  lemma AddSubInverse(a: Vec3, b: Vec3)
    ensures Sub(Add(a, b), b) == a
  {
  }

  /** Dividing by a non-zero scalar undoes scaling by it. */
  lemma ScaleDivInverse(v: Vec3, s: real)
    requires s != 0.0
    ensures DivScalar(Scale(v, s), s) == v
  {
  }

  /** The Hadamard product's components sum to the dot product. */
  lemma HadamardSumsToDot(a: Vec3, b: Vec3)
    ensures var h := Mul(a, b); h.x + h.y + h.z == Dot(a, b)
  {
  }

  /** Swapping the operands of `cross` negates the result. */
  lemma CrossAnticommutative(a: Vec3, b: Vec3)
    ensures Cross(a, b) == Scale(Cross(b, a), -1.0)
  {
  }

  /** The cross product of a vector with itself is the zero vector. */
  lemma CrossSelfZero(a: Vec3)
    ensures Cross(a, a) == Zero
  {
  }

  /** The cross product vanishes on parallel operands. */
  lemma CrossParallelZero(a: Vec3, k: real)
    ensures Cross(a, Scale(a, k)) == Zero
  {
  }

  /** `cross` is linear in its second operand under scaling. */
  lemma CrossScaleRight(a: Vec3, b: Vec3, k: real)
    ensures Cross(a, Scale(b, k)) == Scale(Cross(a, b), k)
  {
    var l, c := Cross(a, Scale(b, k)), Cross(a, b);
    assert l.x == c.x * k by {
      MathLib.ScaledDifference(a.y, b.z, a.z, b.y, k);
    }
    assert l.y == c.y * k by {
      MathLib.ScaledDifference(a.z, b.x, a.x, b.z, k);
    }
    assert l.z == c.z * k by {
      MathLib.ScaledDifference(a.x, b.y, a.y, b.x, k);
    }
  }

  /** Lagrange's identity: `|a x b|^2 == |a|^2 |b|^2 - (a . b)^2`. */
  lemma Lagrange(a: Vec3, b: Vec3)
    ensures LengthSq(Cross(a, b)) == LengthSq(a) * LengthSq(b) - Dot(a, b) * Dot(a, b)
  {
  }

  /** The triple-product expansion `a x (b x c) == b (a . c) - c (a . b)`. */
  lemma TripleProduct(a: Vec3, b: Vec3, c: Vec3)
    ensures Cross(a, Cross(b, c)) == Sub(Scale(b, Dot(a, c)), Scale(c, Dot(a, b)))
  {
    TripleX(a, b, c);
    TripleY(a, b, c);
    TripleZ(a, b, c);
  }

  lemma TripleX(a: Vec3, b: Vec3, c: Vec3)
    ensures Cross(a, Cross(b, c)).x == b.x * Dot(a, c) - c.x * Dot(a, b)
  {
    var ac, ab := Dot(a, c), Dot(a, b);
    assert ac == a.x * c.x + a.y * c.y + a.z * c.z;
    assert ab == a.x * b.x + a.y * b.y + a.z * b.z;
    TripleComponent(a.x, a.y, a.z, b.x, b.y, b.z, c.x, c.y, c.z, ac, ab);
  }

  lemma TripleY(a: Vec3, b: Vec3, c: Vec3)
    ensures Cross(a, Cross(b, c)).y == b.y * Dot(a, c) - c.y * Dot(a, b)
  {
    var ac, ab := Dot(a, c), Dot(a, b);
    assert ac == a.y * c.y + a.z * c.z + a.x * c.x;
    assert ab == a.y * b.y + a.z * b.z + a.x * b.x;
    TripleComponent(a.y, a.z, a.x, b.y, b.z, b.x, c.y, c.z, c.x, ac, ab);
  }

  lemma TripleZ(a: Vec3, b: Vec3, c: Vec3)
    ensures Cross(a, Cross(b, c)).z == b.z * Dot(a, c) - c.z * Dot(a, b)
  {
    var ac, ab := Dot(a, c), Dot(a, b);
    assert ac == a.z * c.z + a.x * c.x + a.y * c.y;
    assert ab == a.z * b.z + a.x * b.x + a.y * b.y;
    TripleComponent(a.z, a.x, a.y, b.z, b.x, b.y, c.z, c.x, c.y, ac, ab);
  }

  /** The first component of the triple-product expansion, over the coordinates. */
  lemma TripleComponent(a1: real, a2: real, a3: real, b1: real, b2: real, b3: real, c1: real, c2: real, c3: real,
                        ac: real, ab: real)
    requires ac == a1 * c1 + a2 * c2 + a3 * c3
    requires ab == a1 * b1 + a2 * b2 + a3 * b3
    ensures a2 * (b1 * c2 - b2 * c1) - a3 * (b3 * c1 - b1 * c3) == b1 * ac - c1 * ab
  {
  }

  /** The scalar triple product is unchanged by a cyclic shift of its operands. */
  lemma ScalarTripleCyclic(a: Vec3, b: Vec3, c: Vec3)
    ensures Dot(Cross(a, b), c) == Dot(Cross(c, a), b)
  {
  }

  /** The cross product is orthogonal to both operands. */
  lemma CrossOrthogonal(a: Vec3, b: Vec3)
    ensures Dot(Cross(a, b), a) == 0.0 && Dot(Cross(a, b), b) == 0.0
  {
  }

  /** Scaling one operand scales the dot product. */
  lemma DotScaleLeft(a: Vec3, b: Vec3, k: real)
    ensures Dot(Scale(a, k), b) == k * Dot(a, b)
  {
    calc {
      Dot(Scale(a, k), b);
      (a.x * k) * b.x + (a.y * k) * b.y + (a.z * k) * b.z;
      k * Dot(a, b);
    }
  }

  /** A cross product with a zero operand is zero; so a non-zero one has non-zero operands. */
  lemma CrossNonZeroOperands(a: Vec3, b: Vec3)
    ensures Cross(a, b) != Zero ==> a != Zero && b != Zero
  {
  }

  /** A scaled vector is zero when the vector is. */
  lemma ScaleNonZero(v: Vec3, k: real)
    ensures Scale(v, k) != Zero ==> v != Zero
  {
  }

  /** `normalize` keeps orthogonality to any vector `w`. */
  lemma NormalizeOrthogonal(sqrt: real -> real, v: Vec3, w: Vec3)
    requires MathLib.IsSqrt(sqrt)
    requires v != Zero
    requires Dot(v, w) == 0.0
    ensures Dot(Normalize(sqrt, v), w) == 0.0
  {
    var n, len := Normalize(sqrt, v), sqrt(LengthSq(v));
    NonZeroHasPositiveLength(v);
    MathLib.SqrtPositive(sqrt, LengthSq(v));
    DotScaleLeft(n, w, len);
    assert len * Dot(n, w) == 0.0;
  }

  /** `normalize` leaves a unit vector unchanged. */
  lemma NormalizeUnit(sqrt: real -> real, v: Vec3)
    requires MathLib.IsSqrt(sqrt)
    requires LengthSq(v) == 1.0
    ensures v != Zero && Normalize(sqrt, v) == v
  {
    NonZeroHasPositiveLength(v);
    MathLib.SqrtOne(sqrt);
    var r := Normalize(sqrt, v);
    assert Scale(r, 1.0) == v;
  }

  /** `normalize` is idempotent. */
  lemma NormalizeIdempotent(sqrt: real -> real, v: Vec3)
    requires MathLib.IsSqrt(sqrt)
    requires v != Zero
    ensures Normalize(sqrt, Normalize(sqrt, v)) == Normalize(sqrt, v)
  {
    NormalizeUnit(sqrt, Normalize(sqrt, v));
  }

  /** `normalize` keeps the direction: the result is a positive multiple of `v`. */
  lemma NormalizeSameDirection(sqrt: real -> real, v: Vec3)
    requires MathLib.IsSqrt(sqrt)
    requires v != Zero
    ensures exists k: real :: 0.0 < k && Normalize(sqrt, v) == Scale(v, k)
  {
    NonZeroHasPositiveLength(v);
    MathLib.SqrtPositive(sqrt, LengthSq(v));
    var len := sqrt(LengthSq(v));
    var r := Normalize(sqrt, v);
    assert Scale(r, len) == v;
    assert r == Scale(v, 1.0 / len);
  }
}
