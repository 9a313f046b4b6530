/**
 The C library calls the linear-algebra header makes (`sqrt`, `sin`, `cos`,
 `tan`) have no exact counterpart over the reals. They enter the model as
 function-typed parameters, and the predicates below are the only facts
 about them that the proofs assume.
 */
module MathLib {

  /** `sqrt` returns the non-negative square root of every non-negative argument. */
  ghost predicate IsSqrt(sqrt: real -> real) {
    forall x: real :: 0.0 <= x ==> 0.0 <= sqrt(x) && sqrt(x) * sqrt(x) == x
  }

  /** `sin` and `cos` satisfy the Pythagorean identity at every angle. */
  ghost predicate IsSinCos(sin: real -> real, cos: real -> real) {
    forall a: real :: sin(a) * sin(a) + cos(a) * cos(a) == 1.0
  }

  /** `sin` and `cos` take their exact values at the zero angle. */
  ghost predicate ExactAtZero(sin: real -> real, cos: real -> real) {
    sin(0.0) == 0.0 && cos(0.0) == 1.0
  }

  function Square(a: real): real {
    a * a
  }

  /** A square is never negative, and is positive exactly when its root is non-zero. */
  lemma SquareSign(a: real)
    ensures 0.0 <= Square(a)
    ensures a != 0.0 <==> 0.0 < Square(a)
  {
    if a < 0.0 {
      calc {
        Square(a);
        (-a) * (-a);
      > { assert (-a) * (-a) > 0.0 * (-a); }
        0.0;
      }
    } else if a > 0.0 {
      calc {
        Square(a);
        a * a;
      > { assert a * a > 0.0 * a; }
        0.0;
      }
    }
  }

  /** A factor that leaves a non-zero number unchanged is one. */
  lemma UnitFactor(a: real, b: real)
    requires b != 0.0
    requires a * b == b
    ensures a == 1.0
  {
    assert (a - 1.0) * b == 0.0;
  }

  /** The square root of a positive number is positive. */
  lemma SqrtPositive(sqrt: real -> real, x: real)
    requires IsSqrt(sqrt)
    requires 0.0 < x
    ensures 0.0 < sqrt(x)
  {
    var s := sqrt(x);
    assert 0.0 <= s && s * s == x;
  }

  /** The square root is determined by the axiom: any non-negative root equals `sqrt(x)`. */
  lemma SqrtUnique(sqrt: real -> real, x: real, s: real)
    requires IsSqrt(sqrt)
    requires 0.0 <= s && s * s == x
    ensures sqrt(x) == s
  {
    var t := sqrt(x);
    assert 0.0 <= t && t * t == x;
    assert (t - s) * (t + s) == 0.0;
    if t + s == 0.0 {
      assert t == 0.0 && s == 0.0;
    } else {
      assert t - s == 0.0;
    }
  }

  /** The axioms fix `sqrt(1) == 1`. */
  lemma SqrtOne(sqrt: real -> real)
    requires IsSqrt(sqrt)
    ensures sqrt(1.0) == 1.0
  {
    SqrtUnique(sqrt, 1.0, 1.0);
  }

  /** A non-zero factor can be cancelled from both sides of an equation. */
  lemma CancelFactor(a: real, b: real, k: real)
    requires k != 0.0
    requires a * k == b * k
    ensures a == b
  {
    assert (a - b) * k == 0.0;
  }

  /** A product with a positive factor is non-positive only when the other factor is. */
  lemma SignOfFactor(a: real, k: real)
    requires 0.0 < k
    requires a * k <= 0.0
    ensures a <= 0.0
  {
  }

  /** A non-positive number times a positive one is non-positive. */
  lemma ProductSign(a: real, k: real)
    requires 0.0 < k
    requires a <= 0.0
    ensures a * k <= 0.0
  {
    assert (-a) * k >= 0.0 * k;
  }

  /** A product with a positive factor is positive only when the other factor is. */
  lemma PositiveFactor(a: real, k: real)
    requires 0.0 < k
    requires 0.0 < k * a
    ensures 0.0 < a
  {
    if a <= 0.0 {
      ProductSign(a, k);
      assert k * a == a * k;
    }
  }

  /** A common factor comes out of a difference of products. */
  lemma ScaledDifference(a: real, b: real, c: real, d: real, k: real)
    ensures a * (b * k) - c * (d * k) == (a * b - c * d) * k
  {
  }
}
