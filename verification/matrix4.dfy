/**
 The 4x4 matrix of the header (`matrix4_t`): four `vector4_t` columns in
 column-major order, so `col[i].v[j]` is the element in row `j`, column `i`.
 A matrix acts on column vectors, and `A * B` is the transform that applies
 `B` first and `A` second.
 */
module Matrix4 {
  import Vector4

  type Vec4 = Vector4.Vec4

  datatype Mat4 = Mat4(c0: Vec4, c1: Vec4, c2: Vec4, c3: Vec4)

  /** The value-initialised matrix `matrix4_t m = {}`: every element zero. */
  const Zero: Mat4 := Mat4(Vector4.Zero, Vector4.Zero, Vector4.Zero, Vector4.Zero)

  /** Column `i`, the header's `col[i]`. */
  function Col(m: Mat4, i: int): Vec4
    requires 0 <= i < 4
  {
    if i == 0 then m.c0 else if i == 1 then m.c1 else if i == 2 then m.c2 else m.c3
  }

  /** The element in row `row` and column `col`, the header's `col[col].v[row]`. */
  function Entry(m: Mat4, row: int, col: int): real
    requires 0 <= row < 4 && 0 <= col < 4
  {
    Vector4.At(Col(m, col), row)
  }

  /** Row `row`, read across the four columns. */
  function Row(m: Mat4, row: int): (r: Vec4)
    requires 0 <= row < 4
    ensures forall col :: 0 <= col < 4 ==> Vector4.At(r, col) == Entry(m, row, col)
  {
    Vector4.Vec4(Entry(m, row, 0), Entry(m, row, 1), Entry(m, row, 2), Entry(m, row, 3))
  }

  /** Two matrices that agree at every element are equal. */
  lemma Extensionality(a: Mat4, b: Mat4)
    requires forall row, col :: 0 <= row < 4 && 0 <= col < 4 ==> Entry(a, row, col) == Entry(b, row, col)
    ensures a == b
  {
    forall col | 0 <= col < 4
      ensures Col(a, col) == Col(b, col)
    {
      forall row | 0 <= row < 4
        ensures Vector4.At(Col(a, col), row) == Vector4.At(Col(b, col), row)
      {
        assert Entry(a, row, col) == Entry(b, row, col);
      }
      Vector4.Extensionality(Col(a, col), Col(b, col));
    }
    assert Col(a, 0) == Col(b, 0) && Col(a, 1) == Col(b, 1);
    assert Col(a, 2) == Col(b, 2) && Col(a, 3) == Col(b, 3);
  }

  /** The assignment `m.col[col].v[row] = value`: one element replaced, the others kept. */
  function SetEntry(m: Mat4, col: int, row: int, value: real): (r: Mat4)
    requires 0 <= row < 4 && 0 <= col < 4
    ensures Entry(r, row, col) == value
    ensures forall i, j :: 0 <= i < 4 && 0 <= j < 4 && (i != row || j != col) ==> Entry(r, i, j) == Entry(m, i, j)
  {
    var c := Vector4.With(Col(m, col), row, value);
    if col == 0 then m.(c0 := c)
    else if col == 1 then m.(c1 := c)
    else if col == 2 then m.(c2 := c)
    else m.(c3 := c)
  }

  /** `identity()`: ones on the diagonal, zeros everywhere else. */
  function Identity(): (r: Mat4)
    ensures forall row, col :: 0 <= row < 4 && 0 <= col < 4 ==>
      Entry(r, row, col) == if row == col then 1.0 else 0.0
  {
    Mat4(Vector4.Vec4(1.0, 0.0, 0.0, 0.0),
         Vector4.Vec4(0.0, 1.0, 0.0, 0.0),
         Vector4.Vec4(0.0, 0.0, 1.0, 0.0),
         Vector4.Vec4(0.0, 0.0, 0.0, 1.0))
  }

  /** `identity()` as the header writes it: a zero matrix, then a loop setting `col[i].v[i] = 1`. */
  method BuildIdentity() returns (m: Mat4)
    ensures forall row, col :: 0 <= row < 4 && 0 <= col < 4 ==>
      Entry(m, row, col) == if row == col then 1.0 else 0.0
  {
    m := Zero;
    var i := 0;
    while i < 4
      invariant 0 <= i <= 4
      invariant forall row, col :: 0 <= row < 4 && 0 <= col < 4 ==>
        Entry(m, row, col) == if row == col && col < i then 1.0 else 0.0
    {
      m := SetEntry(m, i, i, 1.0);
      i := i + 1;
    }
  }

  /**
   The matrix applied to a column vector: the combination of the columns
   weighted by the vector's components, `col[0]*v[0] + ... + col[3]*v[3]`.
   */
  function Apply(m: Mat4, v: Vec4): Vec4 {
    Vector4.Combine(m.c0, m.c1, m.c2, m.c3, v)
  }

  /**
   `left * right`: starting from the zero matrix, column `i` of the result
   accumulates the columns of `left` weighted by the components of column
   `i` of `right`.
   */
  function Mul(a: Mat4, b: Mat4): Mat4 {
    Mat4(Vector4.Add(Zero.c0, Apply(a, b.c0)),
         Vector4.Add(Zero.c1, Apply(a, b.c1)),
         Vector4.Add(Zero.c2, Apply(a, b.c2)),
         Vector4.Add(Zero.c3, Apply(a, b.c3)))
  }

  /** The transpose: rows and columns exchanged. */
  function Transpose(m: Mat4): (r: Mat4)
    ensures forall row, col :: 0 <= row < 4 && 0 <= col < 4 ==> Entry(r, row, col) == Entry(m, col, row)
  {
    Mat4(Row(m, 0), Row(m, 1), Row(m, 2), Row(m, 3))
  }

  /**
   The flat array of sixteen floats the graphics API receives for a
   uniform upload (`&m.col[0].v[0]`): column after column, no padding.
   */
  function Flatten(m: Mat4): (s: seq<real>)
    ensures |s| == 16
    ensures forall col, row :: 0 <= col < 4 && 0 <= row < 4 ==> s[4 * col + row] == Entry(m, row, col)
  {
    [m.c0.x, m.c0.y, m.c0.z, m.c0.w,
     m.c1.x, m.c1.y, m.c1.z, m.c1.w,
     m.c2.x, m.c2.y, m.c2.z, m.c2.w,
     m.c3.x, m.c3.y, m.c3.z, m.c3.w]
  }

  /** Reads a flat column-major array of sixteen floats back into a matrix. */
  function Unflatten(s: seq<real>): (m: Mat4)
    requires |s| == 16
    ensures forall col, row :: 0 <= col < 4 && 0 <= row < 4 ==> Entry(m, row, col) == s[4 * col + row]
  {
    Mat4(Vector4.Vec4(s[0], s[1], s[2], s[3]),
         Vector4.Vec4(s[4], s[5], s[6], s[7]),
         Vector4.Vec4(s[8], s[9], s[10], s[11]),
         Vector4.Vec4(s[12], s[13], s[14], s[15]))
  }

  // ----- laws of the product -----

  /** The flat layout loses nothing: reading it back gives the matrix. */
  lemma FlattenRoundTrip(m: Mat4)
    ensures Unflatten(Flatten(m)) == m
  {
  }

  /** Every flat array of sixteen floats is the layout of exactly one matrix. */
  lemma UnflattenRoundTrip(s: seq<real>)
    requires |s| == 16
    ensures Flatten(Unflatten(s)) == s
  {
  }

  /** Component `i` of `m` applied to `v` is row `i` of `m` dotted with `v`. */
  lemma ApplyRows(m: Mat4, v: Vec4)
    ensures Apply(m, v) == Vector4.Vec4(Vector4.Dot(Row(m, 0), v), Vector4.Dot(Row(m, 1), v),
                                        Vector4.Dot(Row(m, 2), v), Vector4.Dot(Row(m, 3), v))
  {
  }

  /**
   The accumulated columns agree with the textbook product: the element at
   (`row`, `col`) is row `row` of the left factor dotted with column `col` of
   the right factor.
   */
  lemma MulEntries(a: Mat4, b: Mat4)
    ensures forall row, col :: 0 <= row < 4 && 0 <= col < 4 ==>
      Entry(Mul(a, b), row, col) == Vector4.Dot(Row(a, row), Col(b, col))
  {
    forall row, col | 0 <= row < 4 && 0 <= col < 4
      ensures Entry(Mul(a, b), row, col) == Vector4.Dot(Row(a, row), Col(b, col))
    {
      assert Col(Mul(a, b), col) == Apply(a, Col(b, col));
      ApplyRows(a, Col(b, col));
    }
  }

  /** One row of the composition law below. */
  lemma ApplyMulComponent(ra: Vec4, b: Mat4, v: Vec4, rab: Vec4)
    requires rab == Vector4.Vec4(Vector4.Dot(ra, b.c0), Vector4.Dot(ra, b.c1),
                                 Vector4.Dot(ra, b.c2), Vector4.Dot(ra, b.c3))
    ensures Vector4.Dot(ra, Apply(b, v)) == Vector4.Dot(rab, v)
  {
    Vector4.DotCombine(ra, b.c0, b.c1, b.c2, b.c3, v);
  }

  /** Applying a product applies the right factor first, then the left one. */
  lemma ApplyMul(a: Mat4, b: Mat4, v: Vec4)
    ensures Apply(Mul(a, b), v) == Apply(a, Apply(b, v))
  {
    var ab := Mul(a, b);
    ApplyRows(a, b.c0);
    ApplyRows(a, b.c1);
    ApplyRows(a, b.c2);
    ApplyRows(a, b.c3);
    ApplyRows(ab, v);
    ApplyRows(a, Apply(b, v));
    ApplyMulComponent(Row(a, 0), b, v, Row(ab, 0));
    ApplyMulComponent(Row(a, 1), b, v, Row(ab, 1));
    ApplyMulComponent(Row(a, 2), b, v, Row(ab, 2));
    ApplyMulComponent(Row(a, 3), b, v, Row(ab, 3));
  }

  /** The identity leaves every vector unchanged. */
  lemma ApplyIdentity(v: Vec4)
    ensures Apply(Identity(), v) == v
  {
  }

  /** `identity() * M == M`. */
  lemma MulIdentityLeft(m: Mat4)
    ensures Mul(Identity(), m) == m
  {
    ApplyIdentity(m.c0);
    ApplyIdentity(m.c1);
    ApplyIdentity(m.c2);
    ApplyIdentity(m.c3);
  }

  /** `M * identity() == M`. */
  lemma MulIdentityRight(m: Mat4)
    ensures Mul(m, Identity()) == m
  {
  }

  /** The product is associative. */
  lemma MulAssociative(a: Mat4, b: Mat4, c: Mat4)
    ensures Mul(Mul(a, b), c) == Mul(a, Mul(b, c))
  {
    ApplyMul(a, b, c.c0);
    ApplyMul(a, b, c.c1);
    ApplyMul(a, b, c.c2);
    ApplyMul(a, b, c.c3);
  }

  /**
   The product is not commutative: whenever row 0 of `a` is `(0, 1, 0, 0)`
   and `b` has `(0, 1, 0, 0)` as column 0 and zeros elsewhere in row 0,
   `a * b` and `b * a` differ in their top-left element.
   */
  lemma MulNotCommutative(a: Mat4, b: Mat4)
    requires Row(a, 0) == Vector4.Vec4(0.0, 1.0, 0.0, 0.0)
    requires b.c0 == Vector4.Vec4(0.0, 1.0, 0.0, 0.0) && b.c1.x == 0.0 && b.c2.x == 0.0 && b.c3.x == 0.0
    ensures Mul(a, b) != Mul(b, a)
  {
    assert a.c0.x == 0.0 && a.c1.x == 1.0 && a.c2.x == 0.0 && a.c3.x == 0.0;
    assert Mul(a, b).c0.x == 1.0;
    assert Mul(b, a).c0.x == 0.0;
  }

  /** The transpose of a product is the product of the transposes in reverse order. */
  lemma TransposeMul(a: Mat4, b: Mat4)
    ensures Transpose(Mul(a, b)) == Mul(Transpose(b), Transpose(a))
  {
    var l, r := Transpose(Mul(a, b)), Mul(Transpose(b), Transpose(a));
    MulEntries(a, b);
    MulEntries(Transpose(b), Transpose(a));
    forall row, col | 0 <= row < 4 && 0 <= col < 4
      ensures Entry(l, row, col) == Entry(r, row, col)
    {
      assert Row(Transpose(b), row) == Col(b, row) by {
        Vector4.Extensionality(Row(Transpose(b), row), Col(b, row));
      }
      assert Col(Transpose(a), col) == Row(a, col) by {
        Vector4.Extensionality(Col(Transpose(a), col), Row(a, col));
      }
      Vector4.DotCommutative(Row(a, col), Col(b, row));
    }
    Extensionality(l, r);
  }

  // ----- orthogonal matrices -----

  /** `m` is orthogonal: its transpose is its inverse. */
  ghost predicate Orthogonal(m: Mat4) {
    Mul(Transpose(m), m) == Identity()
  }

  /** The transpose is the adjoint for the dot product. */
  lemma DotApplyTranspose(m: Mat4, u: Vec4, w: Vec4)
    ensures Vector4.Dot(Apply(m, u), w) == Vector4.Dot(u, Apply(Transpose(m), w))
  {
    Vector4.DotCommutative(Apply(m, u), w);
    Vector4.DotCombine(w, m.c0, m.c1, m.c2, m.c3, u);
    ApplyRows(Transpose(m), w);
    forall i | 0 <= i < 4
      ensures Row(Transpose(m), i) == Col(m, i)
    {
      Vector4.Extensionality(Row(Transpose(m), i), Col(m, i));
    }
    Vector4.DotCommutative(w, m.c0);
    Vector4.DotCommutative(w, m.c1);
    Vector4.DotCommutative(w, m.c2);
    Vector4.DotCommutative(w, m.c3);
    assert Row(Transpose(m), 0) == m.c0 && Row(Transpose(m), 1) == m.c1;
    assert Row(Transpose(m), 2) == m.c2 && Row(Transpose(m), 3) == m.c3;
  }

  /** An orthogonal matrix preserves dot products, hence lengths and angles. */
  lemma OrthogonalPreservesDot(m: Mat4, u: Vec4, v: Vec4)
    requires Orthogonal(m)
    ensures Vector4.Dot(Apply(m, u), Apply(m, v)) == Vector4.Dot(u, v)
  {
    DotApplyTranspose(m, u, Apply(m, v));
    ApplyMul(Transpose(m), m, v);
    ApplyIdentity(v);
  }

  /** A product of orthogonal matrices is orthogonal. */
  lemma OrthogonalMul(a: Mat4, b: Mat4)
    requires Orthogonal(a) && Orthogonal(b)
    ensures Orthogonal(Mul(a, b))
  {
    var ta, tb := Transpose(a), Transpose(b);
    calc {
      Mul(Transpose(Mul(a, b)), Mul(a, b));
      { TransposeMul(a, b); }
      Mul(Mul(tb, ta), Mul(a, b));
      { MulAssociative(tb, ta, Mul(a, b)); }
      Mul(tb, Mul(ta, Mul(a, b)));
      { MulAssociative(ta, a, b); }
      Mul(tb, Mul(Mul(ta, a), b));
      Mul(tb, Mul(Identity(), b));
      { MulIdentityLeft(b); }
      Mul(tb, b);
      Identity();
    }
  }
}
