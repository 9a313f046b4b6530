/**
 The four-component vector of the header (`vector4_t`), used for homogeneous
 points and for the columns of a matrix: component-wise arithmetic, scalar
 broadcast, the compound assignments and `normalize`. The union's `v[]`
 array view is the function `At`.
 */
module Vector4 {
  import MathLib

  datatype Vec4 = Vec4(x: real, y: real, z: real, w: real)

  const Zero: Vec4 := Vec4(0.0, 0.0, 0.0, 0.0)

  /** The indexed view `v[i]` of the named components. */
  function At(v: Vec4, i: int): real
    requires 0 <= i < 4
  {
    if i == 0 then v.x else if i == 1 then v.y else if i == 2 then v.z else v.w
  }

  /** The assignment `v.v[i] = value`: component `i` replaced, the others kept. */
  function With(v: Vec4, i: int, value: real): (r: Vec4)
    requires 0 <= i < 4
    ensures At(r, i) == value
    ensures forall j :: 0 <= j < 4 && j != i ==> At(r, j) == At(v, j)
  {
    if i == 0 then v.(x := value)
    else if i == 1 then v.(y := value)
    else if i == 2 then v.(z := value)
    else v.(w := value)
  }

  /** Two vectors that agree at every index are equal. */
  lemma Extensionality(a: Vec4, b: Vec4)
    requires forall i :: 0 <= i < 4 ==> At(a, i) == At(b, i)
    ensures a == b
  {
    assert At(a, 0) == At(b, 0) && At(a, 1) == At(b, 1);
    assert At(a, 2) == At(b, 2) && At(a, 3) == At(b, 3);
  }

  function Add(a: Vec4, b: Vec4): Vec4
  {
    Vec4(a.x + b.x, a.y + b.y, a.z + b.z, a.w + b.w)
  }

  function Sub(a: Vec4, b: Vec4): Vec4
  {
    Vec4(a.x - b.x, a.y - b.y, a.z - b.z, a.w - b.w)
  }

  /** The Hadamard (component-wise) product, not the dot product. */
  function Mul(a: Vec4, b: Vec4): Vec4
  {
    Vec4(a.x * b.x, a.y * b.y, a.z * b.z, a.w * b.w)
  }

  /** `v * scalar`: the scalar is broadcast to every component. */
  function Scale(v: Vec4, s: real): Vec4
  {
    Vec4(v.x * s, v.y * s, v.z * s, v.w * s)
  }

  /** `v / scalar`: every component is divided by the scalar. */
  function DivScalar(v: Vec4, s: real): Vec4
    requires s != 0.0
  {
    Vec4(v.x / s, v.y / s, v.z / s, v.w / s)
  }

  /** The weighted sum `p*v[0] + q*v[1] + s*v[2] + t*v[3]`, accumulated left to right. */
  function Combine(p: Vec4, q: Vec4, s: Vec4, t: Vec4, v: Vec4): Vec4 {
    Add(Add(Add(Scale(p, v.x), Scale(q, v.y)), Scale(s, v.z)), Scale(t, v.w))
  }

  function Dot(a: Vec4, b: Vec4): real {
    a.x * b.x + a.y * b.y + a.z * b.z + a.w * b.w
  }

  function LengthSq(v: Vec4): real {
    Dot(v, v)
  }

  /** Only the zero vector has squared length zero. */
  lemma NonZeroHasPositiveLength(v: Vec4)
    ensures v != Zero <==> 0.0 < LengthSq(v)
  {
    calc {
      LengthSq(v);
      MathLib.Square(v.x) + MathLib.Square(v.y) + MathLib.Square(v.z) + MathLib.Square(v.w);
    }
    MathLib.SquareSign(v.x);
    MathLib.SquareSign(v.y);
    MathLib.SquareSign(v.z);
    MathLib.SquareSign(v.w);
  }

  /**
   `normalize(v)`: `v` divided by its Euclidean length `sqrt(|v|^2)`.
   The header leaves the zero vector to IEEE arithmetic; here it is excluded.
   */
  function Normalize(sqrt: real -> real, v: Vec4): (r: Vec4)
    requires MathLib.IsSqrt(sqrt)
    requires v != Zero
    ensures LengthSq(r) == 1.0
    ensures Scale(r, sqrt(LengthSq(v))) == v
  {
    var len := sqrt(LengthSq(v));
    NonZeroHasPositiveLength(v);
    MathLib.SqrtPositive(sqrt, LengthSq(v));
    var r := DivScalar(v, len);
    assert Scale(r, len) == v;
    calc {
      LengthSq(r) * LengthSq(v);
      { assert len * len == LengthSq(v); }
      LengthSq(r) * (len * len);
      { LengthSqScale(r, len); }
      LengthSq(Scale(r, len));
      LengthSq(v);
    }
    MathLib.UnitFactor(LengthSq(r), LengthSq(v));
    r
  }

  /** Scaling by `k` multiplies the squared length by `k * k`. */
  lemma LengthSqScale(v: Vec4, k: real)
    ensures LengthSq(Scale(v, k)) == LengthSq(v) * (k * k)
  {
    calc {
      LengthSq(Scale(v, k));
      (v.x * k) * (v.x * k) + (v.y * k) * (v.y * k) + (v.z * k) * (v.z * k) + (v.w * k) * (v.w * k);
      LengthSq(v) * (k * k);
    }
  }

  // ----- compound assignments: the receiver is updated one field at a time -----

  /** `v += o`: leaves the receiver equal to `v + o` and returns it. */
  method AddAssign(v: Vec4, o: Vec4) returns (updated: Vec4, returned: Vec4)
    ensures updated == Add(v, o) && returned == updated
  {
    updated := v;
    updated := updated.(x := updated.x + o.x);
    updated := updated.(y := updated.y + o.y);
    updated := updated.(z := updated.z + o.z);
    updated := updated.(w := updated.w + o.w);
    returned := updated;
  }

  /** `v -= o`: leaves the receiver equal to `v - o` and returns it. */
  method SubAssign(v: Vec4, o: Vec4) returns (updated: Vec4, returned: Vec4)
    ensures updated == Sub(v, o) && returned == updated
  {
    updated := v;
    updated := updated.(x := updated.x - o.x);
    updated := updated.(y := updated.y - o.y);
    updated := updated.(z := updated.z - o.z);
    updated := updated.(w := updated.w - o.w);
    returned := updated;
  }

  /** `v *= o` (vector): leaves the receiver equal to the Hadamard product. */
  method MulAssign(v: Vec4, o: Vec4) returns (updated: Vec4, returned: Vec4)
    ensures updated == Mul(v, o) && returned == updated
  {
    updated := v;
    updated := updated.(x := updated.x * o.x);
    updated := updated.(y := updated.y * o.y);
    updated := updated.(z := updated.z * o.z);
    updated := updated.(w := updated.w * o.w);
    returned := updated;
  }

  /** `v /= o` (vector): undoes a Hadamard product by `o`. */
  method DivAssign(v: Vec4, o: Vec4) returns (updated: Vec4, returned: Vec4)
    requires o.x != 0.0 && o.y != 0.0 && o.z != 0.0 && o.w != 0.0
    ensures Mul(updated, o) == v && returned == updated
  {
    updated := v;
    updated := updated.(x := updated.x / o.x);
    updated := updated.(y := updated.y / o.y);
    updated := updated.(z := updated.z / o.z);
    updated := updated.(w := updated.w / o.w);
    returned := updated;
  }

  /** `v *= s` (scalar): leaves the receiver equal to `v * s`. */
  method ScaleAssign(v: Vec4, s: real) returns (updated: Vec4, returned: Vec4)
    ensures updated == Scale(v, s) && returned == updated
  {
    updated := v;
    updated := updated.(x := updated.x * s);
    updated := updated.(y := updated.y * s);
    updated := updated.(z := updated.z * s);
    updated := updated.(w := updated.w * s);
    returned := updated;
  }

  /** `v /= s` (scalar): undoes a scaling by `s`. */
  method DivScalarAssign(v: Vec4, s: real) returns (updated: Vec4, returned: Vec4)
    requires s != 0.0
    ensures Scale(updated, s) == v && returned == updated
  {
    updated := v;
    updated := updated.(x := updated.x / s);
    updated := updated.(y := updated.y / s);
    updated := updated.(z := updated.z / s);
    updated := updated.(w := updated.w / s);
    returned := updated;
  }

  // ----- algebraic laws -----

  /** Every operator acts index by index on the `v[]` view. */
  lemma ComponentWise(a: Vec4, b: Vec4, s: real)
    ensures forall i :: 0 <= i < 4 ==> At(Add(a, b), i) == At(a, i) + At(b, i)
    ensures forall i :: 0 <= i < 4 ==> At(Sub(a, b), i) == At(a, i) - At(b, i)
    ensures forall i :: 0 <= i < 4 ==> At(Mul(a, b), i) == At(a, i) * At(b, i)
    ensures forall i :: 0 <= i < 4 ==> At(Scale(a, s), i) == At(a, i) * s
    ensures s != 0.0 ==> forall i :: 0 <= i < 4 ==> At(DivScalar(a, s), i) * s == At(a, i)
  {
  }

  /** Subtraction undoes addition. */
  lemma AddSubInverse(a: Vec4, b: Vec4)
    ensures Sub(Add(a, b), b) == a
  {
  }

  /** Dividing by a non-zero scalar undoes scaling by it. */
  lemma ScaleDivInverse(v: Vec4, s: real)
    requires s != 0.0
    ensures DivScalar(Scale(v, s), s) == v
  {
  }

  /** The dot product distributes over a weighted sum. */
  lemma DotCombine(r: Vec4, p: Vec4, q: Vec4, s: Vec4, t: Vec4, v: Vec4)
    ensures Dot(r, Combine(p, q, s, t, v))
         == Dot(r, p) * v.x + Dot(r, q) * v.y + Dot(r, s) * v.z + Dot(r, t) * v.w
  {
    var a1 := Add(Scale(p, v.x), Scale(q, v.y));
    var a2 := Add(a1, Scale(s, v.z));
    DotAdd(r, a2, Scale(t, v.w));
    DotAdd(r, a1, Scale(s, v.z));
    DotAdd(r, Scale(p, v.x), Scale(q, v.y));
    DotScale(r, p, v.x);
    DotScale(r, q, v.y);
    DotScale(r, s, v.z);
    DotScale(r, t, v.w);
  }

  /** The dot product is additive in its second operand. */
  lemma DotAdd(r: Vec4, a: Vec4, b: Vec4)
    ensures Dot(r, Add(a, b)) == Dot(r, a) + Dot(r, b)
  {
  }

  /** The dot product is homogeneous in its second operand. */
  lemma DotScale(r: Vec4, a: Vec4, k: real)
    ensures Dot(r, Scale(a, k)) == Dot(r, a) * k
  {
  }

  lemma DotCommutative(a: Vec4, b: Vec4)
    ensures Dot(a, b) == Dot(b, a)
  {
  }

  /** The Hadamard product's components sum to the dot product. */
  lemma HadamardSumsToDot(a: Vec4, b: Vec4)
    ensures var h := Mul(a, b); h.x + h.y + h.z + h.w == Dot(a, b)
  {
  }

  /** `normalize` is idempotent. */
  lemma NormalizeIdempotent(sqrt: real -> real, v: Vec4)
    requires MathLib.IsSqrt(sqrt)
    requires v != Zero
    ensures Normalize(sqrt, Normalize(sqrt, v)) == Normalize(sqrt, v)
  {
    var u := Normalize(sqrt, v);
    NonZeroHasPositiveLength(u);
    MathLib.SqrtOne(sqrt);
    assert Scale(Normalize(sqrt, u), 1.0) == u;
  }
}
