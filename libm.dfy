/** The parts of the C++ maths library that the distribution and statistics code calls.

    Floating point is idealised as `real`. Integer powers (`std::pow(x, 2)`,
    `std::pow(x, 3)`, `std::pow(x, 4)`) are exact and modelled by `Pow`. The
    transcendental functions and constants cannot be written down exactly, so a
    `Maths` value carries them as parameters; every statement about the model
    holds for whatever functions it carries, and the analytic facts a few lemmas
    rely on are collected in `Faithful`.
 */
module Libm {

  datatype Library = Library(
    exp: real -> real,         // std::exp
    sinh: real -> real,        // std::sinh
    cosh: real -> real,        // std::cosh
    asinh: real -> real,       // std::asinh
    pow: (real, real) -> real, // std::pow with a non-integer exponent
    sqrt2: real,               // std::numbers::sqrt2
    invSqrtPi: real)           // std::numbers::inv_sqrtpi

  /** A library whose square-root-of-two constant is positive, so `1.0 / sqrt2` is defined. */
  type Maths = m: Library | m.sqrt2 > 0.0
    witness Library(x => 1.0, x => x, x => 1.0, x => x, (x, y) => 1.0, 1.0, 1.0)

  // Every use of a library function goes through one of these, so that a
  // value computed inside a function and one stated in a lemma are the same term.
  function Exp(m: Maths, x: real): real { m.exp(x) }
  function Sinh(m: Maths, x: real): real { m.sinh(x) }
  function Cosh(m: Maths, x: real): real { m.cosh(x) }
  function Asinh(m: Maths, x: real): real { m.asinh(x) }
  function RealPow(m: Maths, x: real, y: real): real { m.pow(x, y) }

  /** The facts of real analysis about the library that the density lemmas use. */
  ghost predicate Faithful(m: Maths) {
    && m.invSqrtPi > 0.0
    && (forall x :: Exp(m, x) > 0.0)
    && (forall x :: Cosh(m, x) > 0.0)
    && (forall x {:trigger Sinh(m, Neg(x))} :: Sinh(m, Neg(x)) == -Sinh(m, x))
    && (forall x {:trigger Cosh(m, Neg(x))} :: Cosh(m, Neg(x)) == Cosh(m, x))
    && (forall y :: Sinh(m, Asinh(m, y)) == y)
  }

  /** Negation as a function, so that the symmetry facts in `Faithful` have a
      trigger that does not match their own right-hand sides. */
  function Neg(x: real): real {
    -x
  }

  /** The location-scale map `y |-> theta + lambda * y`. The generators and the
      sample statistics both name it, so that an image computed by one and an
      image stated by the other are the same term. */
  function Affine(theta: real, lambda: real, y: real): real {
    theta + lambda * y
  }

  /** Multiplication as a function. Lemmas that scale a quantity state the
      product with it, so that the product a lemma concludes about its
      parameters and the same product in the caller's terms are one term. */
  function Mul(a: real, b: real): real {
    a * b
  }

  /** `x` raised to the natural power `n`, exactly. */
  function Pow(x: real, n: nat): real {
    if n == 0 then 1.0 else x * Pow(x, n - 1)
  }

  lemma PowSmall(x: real)
    ensures Pow(x, 1) == x
    ensures Pow(x, 2) == x * x
    ensures Pow(x, 3) == x * x * x
    ensures Pow(x, 4) == (x * x) * (x * x)
  {
    assert Pow(x, 1) == x * Pow(x, 0);
    assert Pow(x, 2) == x * Pow(x, 1);
    assert Pow(x, 3) == x * Pow(x, 2);
    assert Pow(x, 4) == x * Pow(x, 3);
  }

  lemma {:induction false} PowMul(a: real, b: real, n: nat)
    ensures Pow(a * b, n) == Pow(a, n) * Pow(b, n)
  {
    if n > 0 {
      var k: nat := n - 1;
      PowMul(a, b, k);
      var pa, pb := Pow(a, k), Pow(b, k);
      assert Pow(a * b, n) == (a * b) * (pa * pb);
      assert Pow(a, n) == a * pa;
      assert Pow(b, n) == b * pb;
      assert (a * b) * (pa * pb) == (a * pa) * (b * pb);
    }
  }

  /** A positive power is zero exactly at zero. */
  lemma {:induction false} PowZero(x: real, n: nat)
    requires n > 0
    ensures Pow(x, n) == 0.0 <==> x == 0.0
  {
    if n > 1 {
      PowZero(x, n - 1);
      assert Pow(x, n) == x * Pow(x, n - 1);
      if x != 0.0 {
        assert Pow(x, n - 1) != 0.0;
        assert x * Pow(x, n - 1) != 0.0;
      }
    }
  }

  /** An even power is never negative. */
  lemma {:induction false} PowEvenNonNegative(x: real, n: nat)
    requires n % 2 == 0
    ensures Pow(x, n) >= 0.0
  {
    if n > 0 {
      PowEvenNonNegative(x, n - 2);
      assert Pow(x, n) == (x * x) * Pow(x, n - 2) by {
        assert Pow(x, n - 1) == x * Pow(x, n - 2);
      }
      assert x * x >= 0.0;
    }
  }

  /** An odd power is an odd function. */
  lemma {:induction false} PowOdd(x: real, n: nat)
    requires n % 2 == 1
    ensures Pow(-x, n) == -Pow(x, n)
  {
    if n > 1 {
      PowOdd(x, n - 2);
      var p, q := Pow(x, n - 2), Pow(-x, n - 2);
      assert Pow(x, n) == x * (x * p) by {
        assert Pow(x, n - 1) == x * p;
      }
      assert Pow(-x, n) == (-x) * ((-x) * q) by {
        assert Pow(-x, n - 1) == (-x) * q;
      }
      assert q == -p;
      assert (-x) * ((-x) * (-p)) == -(x * (x * p));
    }
  }
}
