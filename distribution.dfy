/** The distribution framework: the sinh-arcsinh-normal (SN) shape constraint,
    the standardised densities, the density and generator factories, and the
    location-scale layer over them.

    A density callable is a Dafny function value. A generator callable is an
    immutable value (`Generator`) that says how one standard-normal draw becomes
    a variate; the shared pseudo-random engine is a `NormalSource` object, and
    `Invoke` is the call operator, which consumes exactly one draw from it.
 */
module Distribution {
  import opened Libm

  /** `std::invalid_argument` with its message. */
  datatype Error = InvalidArgument(message: string)

  datatype Result<T> = Success(value: T) | Failure(error: Error)

  const ConstraintMessage := "nu must be sutisfie the distribution constraint"

  /** `distribution_constraint` for the SN family: the shape parameter lies in the open interval (0, 2). */
  predicate SNConstraint(nu: real) {
    nu > 0.0 && nu < 2.0
  }

  // ---------------------------------------------------------------------------
  // Standardised densities

  /** The standard normal density 1/sqrt(2) * 1/sqrt(pi) * exp(-x^2 / 2). */
  function NormalDensity(m: Maths, x: real): real {
    var invSqrt2 := 1.0 / m.sqrt2;
    invSqrt2 * m.invSqrtPi * Exp(m, -Pow(x, 2) / 2.0)
  }

  /** The change of variable of the SN density: (2/nu) * sinh(x). */
  function SNArgument(m: Maths, x: real, nu: real): real
    requires nu != 0.0
  {
    (2.0 / nu) * Sinh(m, x)
  }

  /** The standardised SN density (2/nu) * phi((2/nu) * sinh(x)) * cosh(x). */
  function SNDensity(m: Maths, x: real, nu: real): real
    requires nu != 0.0
  {
    var coef := 2.0 / nu;
    coef * NormalDensity(m, SNArgument(m, x, nu)) * Cosh(m, x)
  }

  lemma NormalDensitySymmetric(m: Maths, x: real)
    ensures NormalDensity(m, -x) == NormalDensity(m, x)
  {
    PowSmall(x);
    PowSmall(-x);
    assert Pow(-x, 2) == Pow(x, 2);
    assert -Pow(-x, 2) / 2.0 == -Pow(x, 2) / 2.0;
    assert Exp(m, -Pow(-x, 2) / 2.0) == Exp(m, -Pow(x, 2) / 2.0);
  }

  lemma NormalDensityPositive(m: Maths, x: real)
    requires Faithful(m)
    ensures NormalDensity(m, x) > 0.0
  {
    var e := Exp(m, -Pow(x, 2) / 2.0);
    assert e > 0.0;
    assert 1.0 / m.sqrt2 > 0.0;
    assert (1.0 / m.sqrt2) * m.invSqrtPi > 0.0;
  }

  lemma SNDensitySymmetric(m: Maths, x: real, nu: real)
    requires Faithful(m) && nu != 0.0
    ensures SNDensity(m, -x, nu) == SNDensity(m, x, nu)
  {
    assert Neg(x) == -x;
    var a := SNArgument(m, x, nu);
    assert SNArgument(m, -x, nu) == -a by {
      assert Sinh(m, Neg(x)) == -Sinh(m, x);
    }
    assert Cosh(m, -x) == Cosh(m, x) by {
      assert Cosh(m, Neg(x)) == Cosh(m, x);
    }
    NormalDensitySymmetric(m, a);
  }

  lemma SNDensityPositive(m: Maths, x: real, nu: real)
    requires Faithful(m) && SNConstraint(nu)
    ensures SNDensity(m, x, nu) > 0.0
  {
    var coef := 2.0 / nu;
    var phi := NormalDensity(m, SNArgument(m, x, nu));
    NormalDensityPositive(m, SNArgument(m, x, nu));
    assert coef > 0.0;
    assert coef * phi > 0.0;
    assert Cosh(m, x) > 0.0;
  }

  // ---------------------------------------------------------------------------
  // Density factories

  /** `make_standart_distribution_density<SN>`: checks the constraint first and
      only then returns the standardised density curried at `nu`. */
  function MakeStandardDensity(m: Maths, nu: real): (r: Result<real -> real>)
    ensures r.Success? <==> SNConstraint(nu)
    ensures r.Failure? ==> r.error == InvalidArgument(ConstraintMessage)
    ensures r.Success? ==> forall x :: r.value(x) == SNDensity(m, x, nu)
  {
    if !SNConstraint(nu) then
      Failure(InvalidArgument(ConstraintMessage))
    else
      Success(x => SNDensity(m, x, nu))
  }

  /** `make_distribution_density<SN>`: wraps the standard density in the
      location-scale change of variables; the constraint failure of the
      standard factory propagates before any wrapper is built. */
  function MakeDistributionDensity(m: Maths, nu: real, theta: real := 0.0, lambda: real := 1.0): (r: Result<real -> real>)
    requires lambda != 0.0
    ensures r.Success? <==> SNConstraint(nu)
    ensures r.Failure? ==> r.error == InvalidArgument(ConstraintMessage)
    ensures r.Success? ==> forall x :: r.value(x) == SNDensity(m, (x - theta) / lambda, nu) / lambda
  {
    match MakeStandardDensity(m, nu)
    case Failure(e) => Failure(e)
    case Success(density) =>
      Success(x => density((x - theta) / lambda) / lambda)
  }

  /** With the default location 0 and scale 1 the wrapped density is the standard one. */
  lemma DefaultDensityIsStandard(m: Maths, nu: real, x: real)
    ensures MakeDistributionDensity(m, nu).Success? == MakeStandardDensity(m, nu).Success?
    ensures MakeDistributionDensity(m, nu).Success? ==>
              MakeDistributionDensity(m, nu).value(x) == MakeStandardDensity(m, nu).value(x)
  {
    if SNConstraint(nu) {
      assert (x - 0.0) / 1.0 == x;
    }
  }

  /** The density of theta + lambda * X at the image of a point is the standard
      density at that point divided by lambda. */
  lemma DensityAtImage(m: Maths, nu: real, theta: real, lambda: real, x: real)
    requires SNConstraint(nu) && lambda != 0.0
    ensures MakeDistributionDensity(m, nu, theta, lambda).value(theta + lambda * x) == SNDensity(m, x, nu) / lambda
  {
    assert ((theta + lambda * x) - theta) / lambda == x;
  }

  /** With a positive scale every location-scale density value is positive;
      with a negative scale every one is negative (the source divides by lambda,
      not by its absolute value). */
  lemma DistributionDensitySign(m: Maths, nu: real, theta: real, lambda: real, x: real)
    requires Faithful(m) && SNConstraint(nu) && lambda != 0.0
    ensures lambda > 0.0 ==> MakeDistributionDensity(m, nu, theta, lambda).value(x) > 0.0
    ensures lambda < 0.0 ==> MakeDistributionDensity(m, nu, theta, lambda).value(x) < 0.0
  {
    var f := SNDensity(m, (x - theta) / lambda, nu);
    SNDensityPositive(m, (x - theta) / lambda, nu);
    assert MakeDistributionDensity(m, nu, theta, lambda).value(x) == f / lambda;
    if lambda > 0.0 {
      assert f / lambda > 0.0;
    } else {
      assert f / lambda < 0.0;
    }
  }

  // ---------------------------------------------------------------------------
  // Generators

  /** A generator callable: the standardised SN generator curried at `nu`, or a
      location-scale wrapper around another generator. */
  datatype Generator =
    | StandardSN(nu: real)
    | LocationScale(base: Generator, theta: real, lambda: real)

  /** `standart_distribution_generator<SN>` applied to the standard-normal draw `z`: asinh(nu * z / 2). */
  function SNVariate(m: Maths, nu: real, z: real): real {
    Asinh(m, nu * z / 2.0)
  }

  /** The variate a generator returns when the engine hands it the standard-normal draw `z`. */
  function Transform(m: Maths, g: Generator, z: real): real {
    match g
    case StandardSN(nu) => SNVariate(m, nu, z)
    case LocationScale(base, theta, lambda) => Affine(theta, lambda, Transform(m, base, z))
  }

  /** `make_standart_distribution_generator<SN>`: checks the constraint first. */
  function MakeStandardGenerator(nu: real): (r: Result<Generator>)
    ensures r.Success? <==> SNConstraint(nu)
    ensures r.Failure? ==> r.error == InvalidArgument(ConstraintMessage)
    ensures r.Success? ==> r.value.StandardSN? && r.value.nu == nu
  {
    if !SNConstraint(nu) then
      Failure(InvalidArgument(ConstraintMessage))
    else
      Success(StandardSN(nu))
  }

  /** `make_distribution_generator<SN>`: builds the standard generator (which
      may fail) and wraps it in the affine map theta + lambda * x. */
  function MakeDistributionGenerator(nu: real, theta: real := 0.0, lambda: real := 1.0): (r: Result<Generator>)
    ensures r.Success? <==> SNConstraint(nu)
    ensures r.Failure? ==> r.error == InvalidArgument(ConstraintMessage)
    ensures r.Success? ==> r.value == LocationScale(StandardSN(nu), theta, lambda)
  {
    match MakeStandardGenerator(nu)
    case Failure(e) => Failure(e)
    case Success(generator) => Success(LocationScale(generator, theta, lambda))
  }

  /** A variate of the location-scale generator is theta + lambda times the
      standard SN variate of the same draw. */
  lemma DistributionGeneratorTransform(m: Maths, nu: real, theta: real, lambda: real, z: real)
    requires SNConstraint(nu)
    ensures Transform(m, MakeDistributionGenerator(nu, theta, lambda).value, z)
            == theta + lambda * Transform(m, MakeStandardGenerator(nu).value, z)
  {
  }

  /** With the default location 0 and scale 1 the wrapped generator returns what the standard one does. */
  lemma DefaultGeneratorIsStandard(m: Maths, nu: real, z: real)
    ensures MakeDistributionGenerator(nu).Success? == MakeStandardGenerator(nu).Success?
    ensures MakeDistributionGenerator(nu).Success? ==>
              Transform(m, MakeDistributionGenerator(nu).value, z) == Transform(m, MakeStandardGenerator(nu).value, z)
  {
  }

  /** The generator and the density use inverse changes of variable: the
      density's argument (2/nu) * sinh(x), applied to the variate x the SN
      generator makes from the draw z, gives back z. */
  lemma GeneratorInvertsDensityTransform(m: Maths, nu: real, z: real)
    requires Faithful(m) && nu != 0.0
    ensures SNArgument(m, Transform(m, StandardSN(nu), z), nu) == z
  {
    assert Sinh(m, Asinh(m, nu * z / 2.0)) == nu * z / 2.0;
  }

  /** The shared standard-normal engine (the function-local static
      `mt19937` and `normal_distribution`): the infinite stream of variates it
      delivers and how many of them have been consumed. */
  class NormalSource {
    const draws: nat -> real
    var pos: nat

    constructor (draws: nat -> real)
      ensures this.draws == draws && pos == 0
    {
      this.draws := draws;
      pos := 0;
    }

    /** One call of `normal_gen(gen)`. */
    method Next() returns (z: real)
      modifies this`pos
      ensures z == draws(old(pos))
      ensures pos == old(pos) + 1
    {
      z := draws(pos);
      pos := pos + 1;
    }
  }

  /** The call operator of a generator callable: draws exactly one standard
      normal variate from the shared engine and transforms it. */
  method Invoke(m: Maths, g: Generator, src: NormalSource) returns (y: real)
    modifies src`pos
    ensures src.pos == old(src.pos) + 1
    ensures y == Transform(m, g, src.draws(old(src.pos)))
    decreases g
  {
    match g
    case StandardSN(nu) =>
      var z := src.Next();
      y := SNVariate(m, nu, z);
    case LocationScale(base, theta, lambda) =>
      var x := Invoke(m, base, src);
      y := theta + lambda * x;
  }
}
