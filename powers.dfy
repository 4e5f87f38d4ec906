/** Integer powers of reals, and the facts about them that the finance formulas rely on. */
module Powers {

  /** `x` raised to the natural power `n` (Python's `x ** n` for an integer exponent). */
  function Pow(x: real, n: nat): real
  {
    if n == 0 then 1.0 else x * Pow(x, n - 1)
  }

  function Abs(x: real): (r: real)
    ensures r >= 0.0
    ensures r == x || r == -x
  {
    if x < 0.0 then -x else x
  }

  // Field facts the solver does not find on its own in larger contexts.

  lemma DivMul(a: real, b: real)
    requires b != 0.0
    ensures (a / b) * b == a
  {
  }

  /** A quotient is the unique solution of `x * b == a`. */
  lemma DivUnique(x: real, a: real, b: real)
    requires b != 0.0 && x * b == a
    ensures x == a / b
  {
  }

  /** A non-zero factor cancels. */
  lemma CancelFactor(x: real, y: real, w: real)
    requires w != 0.0 && x * w == y * w
    ensures x == y
  {
    DivUnique(x, y * w, w);
    DivUnique(y, y * w, w);
  }

  lemma NonZeroProduct(a: real, b: real)
    requires a != 0.0 && b != 0.0
    ensures a * b != 0.0
  {
  }

  lemma IntMulAsReal(a: int, b: int)
    ensures (a * b) as real == a as real * b as real
  {
  }

  lemma AbsScale(u: real, y: real, p: real)
    requires u > 0.0 && p == u * y
    ensures Abs(p) == u * Abs(y)
  {
    if y < 0.0 {
      assert p < 0.0;
    } else {
      assert p >= 0.0;
    }
  }

  lemma {:induction false} PowPositive(x: real, n: nat)
    requires x > 0.0
    ensures Pow(x, n) > 0.0
  {
    if n > 0 {
      PowPositive(x, n - 1);
    }
  }

  lemma {:induction false} PowNonZero(x: real, n: nat)
    requires x != 0.0
    ensures Pow(x, n) != 0.0
  {
    if n > 0 {
      PowNonZero(x, n - 1);
      assert Pow(x, n) == x * Pow(x, n - 1);
    }
  }

  /** Powers distribute over a product: with `z == x * y`, `z^n == x^n * y^n`. */
  lemma {:induction false} PowMul(x: real, y: real, z: real, n: nat)
    requires z == x * y
    ensures Pow(z, n) == Pow(x, n) * Pow(y, n)
  {
    if n > 0 {
      PowMul(x, y, z, n - 1);
      MulRearrange(x, y, z, Pow(x, n - 1), Pow(y, n - 1), Pow(z, n - 1));
    }
  }

  lemma MulRearrange(x: real, y: real, z: real, a: real, b: real, c: real)
    requires z == x * y && c == a * b
    ensures z * c == (x * a) * (y * b)
  {
  }

  /**
   * `1 - x`. Naming it keeps products such as `s * OneMinus(q)` products of two terms, so
   * that facts about them match syntactically wherever they are used.
   */
  function OneMinus(x: real): real { 1.0 - x }

  /** `1 + q + q^2 + ... + q^(n-1)`. */
  function GeometricSum(q: real, n: nat): real
  {
    if n == 0 then 0.0 else GeometricSum(q, n - 1) + Pow(q, n - 1)
  }

  /** The geometric series telescopes: `(1 + q + ... + q^(n-1)) * (1 - q) == 1 - q^n`. */
  lemma {:induction false} GeometricSumClosedForm(q: real, n: nat)
    ensures GeometricSum(q, n) * OneMinus(q) == OneMinus(Pow(q, n))
  {
    if n > 0 {
      GeometricSumClosedForm(q, n - 1);
      GeometricStep(GeometricSum(q, n), GeometricSum(q, n - 1), q, Pow(q, n - 1), Pow(q, n));
    }
  }

  /** With ratio one the series just counts its terms. */
  lemma {:induction false} GeometricSumOfOne(n: nat)
    ensures GeometricSum(1.0, n) == n as real
  {
    if n > 0 {
      GeometricSumOfOne(n - 1);
      PowOne(n - 1);
    }
  }

  lemma GeometricStep(s: real, prev: real, q: real, qk: real, qn: real)
    requires prev * OneMinus(q) == OneMinus(qk) && qn == q * qk && s == prev + qk
    ensures s * OneMinus(q) == OneMinus(qn)
  {
  }

  lemma Distribute(d: real, a: real, b: real, s: real)
    requires s == a + b
    ensures d * s == d * a + d * b
  {
  }

  lemma {:induction false} PowOne(n: nat)
    ensures Pow(1.0, n) == 1.0
  {
    if n > 0 {
      PowOne(n - 1);
    }
  }

  lemma {:induction false} PowNonNegative(x: real, n: nat)
    requires x >= 0.0
    ensures Pow(x, n) >= 0.0
  {
    if n > 0 {
      PowNonNegative(x, n - 1);
      assert x * Pow(x, n - 1) >= 0.0;
    }
  }

  /** The absolute value of a power is the power of the absolute value. */
  lemma {:induction false} PowAbs(x: real, n: nat)
    ensures Abs(Pow(x, n)) == Pow(Abs(x), n)
  {
    if n > 0 {
      PowAbs(x, n - 1);
      var p := Pow(x, n - 1);
      assert Abs(x * p) == Abs(x) * Abs(p);
    }
  }

  lemma {:induction false} PowAboveOne(y: real, n: nat)
    requires y > 1.0 && n >= 1
    ensures Pow(y, n) > 1.0
  {
    if n > 1 {
      PowAboveOne(y, n - 1);
      var p := Pow(y, n - 1);
      assert y * p > 1.0 * p;
    }
  }

  lemma {:induction false} PowBelowOne(y: real, n: nat)
    requires 0.0 <= y < 1.0 && n >= 1
    ensures 0.0 <= Pow(y, n) < 1.0
  {
    if n > 1 {
      PowBelowOne(y, n - 1);
      var p := Pow(y, n - 1);
      assert Pow(y, n) == y * p;
      assert 0.0 <= y * p <= 1.0 * p;
    }
  }

  /** A positive power equals one only when the base is one or minus one. */
  lemma PowEqualsOne(x: real, n: nat)
    requires n >= 1
    requires Pow(x, n) == 1.0
    ensures x == 1.0 || x == -1.0
  {
    PowAbs(x, n);
    if Abs(x) > 1.0 {
      PowAboveOne(Abs(x), n);
    } else if Abs(x) < 1.0 {
      PowBelowOne(Abs(x), n);
    }
  }
}
