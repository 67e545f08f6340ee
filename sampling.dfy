/** The sample builder `generate_distribution`: calls a generator callable N
    times and appends each variate to the result, in call order.

    With the shared engine modelled as a `NormalSource`, a call that starts
    at position `start` of the engine's stream returns the generator's
    transforms of the next N draws; `Realisation` names that sequence so
    that lemmas can speak about it.
 */
module Sampling {
  import opened Libm
  import opened Distribution
  import opened Statistics

  /** The variates generator `g` makes from the `n` draws after position `start`, in call order. */
  function Realisation(m: Maths, g: Generator, draws: nat -> real, start: nat, n: nat): seq<real> {
    seq(n, i requires 0 <= i < n => Transform(m, g, draws(start + i)))
  }

  /** `generate_distribution(distr, N)`: N calls of the generator, each result appended to `res`. */
  method GenerateDistribution(m: Maths, g: Generator, src: NormalSource, n: nat) returns (res: seq<real>)
    modifies src`pos
    ensures |res| == n
    ensures forall i :: 0 <= i < n ==> res[i] == Transform(m, g, src.draws(old(src.pos) + i))
    ensures res == Realisation(m, g, src.draws, old(src.pos), n)
    ensures src.pos == old(src.pos) + n
  {
    res := [];
    for i := 0 to n
      invariant |res| == i
      invariant src.pos == old(src.pos) + i
      invariant forall j :: 0 <= j < i ==> res[j] == Transform(m, g, src.draws(old(src.pos) + j))
    {
      var y := Invoke(m, g, src);
      res := res + [y];
    }
  }

  /** Two builds in a row consume consecutive stretches of the stream: together
      they give the realisation of one build of the combined length. */
  lemma {:induction false} RealisationSplits(m: Maths, g: Generator, draws: nat -> real, start: nat, n1: nat, n2: nat)
    ensures Realisation(m, g, draws, start, n1 + n2)
            == Realisation(m, g, draws, start, n1) + Realisation(m, g, draws, start + n1, n2)
  {
    var whole := Realisation(m, g, draws, start, n1 + n2);
    var parts := Realisation(m, g, draws, start, n1) + Realisation(m, g, draws, start + n1, n2);
    forall i | 0 <= i < n1 + n2 ensures whole[i] == parts[i] {
      if i >= n1 {
        assert start + n1 + (i - n1) == start + i;
      }
    }
  }

  /** A sample built from the location-scale generator is the location-scale
      image of the sample the wrapped generator builds from the same draws. */
  lemma {:induction false} RealisationOfLocationScale(m: Maths, base: Generator, theta: real, lambda: real,
                                                      draws: nat -> real, start: nat, n: nat)
    ensures Realisation(m, LocationScale(base, theta, lambda), draws, start, n)
            == LocationScaleImage(Realisation(m, base, draws, start, n), theta, lambda)
  {
    var x := Realisation(m, base, draws, start, n);
    var y := Realisation(m, LocationScale(base, theta, lambda), draws, start, n);
    forall i | 0 <= i < n ensures y[i] == LocationScaleImage(x, theta, lambda)[i] {
      assert x[i] == Transform(m, base, draws(start + i));
      assert y[i] == Transform(m, LocationScale(base, theta, lambda), draws(start + i));
    }
  }

  /** The mean of a sample drawn through `make_distribution_generator` is
      theta + lambda times the mean of the standard generator's sample on the
      same draws. */
  lemma {:induction false} GeneratedSampleMean(m: Maths, nu: real, theta: real, lambda: real, draws: nat -> real, start: nat, n: nat)
    requires SNConstraint(nu) && n > 0
    ensures SampleMean(Realisation(m, MakeDistributionGenerator(nu, theta, lambda).value, draws, start, n))
            == theta + lambda * SampleMean(Realisation(m, MakeStandardGenerator(nu).value, draws, start, n))
  {
    var x := Realisation(m, MakeStandardGenerator(nu).value, draws, start, n);
    RealisationOfLocationScale(m, MakeStandardGenerator(nu).value, theta, lambda, draws, start, n);
    ImageMean(x, theta, lambda);
  }

  /** The dispersion of a sample drawn through `make_distribution_generator`
      is lambda^2 times the dispersion of the standard generator's sample on
      the same draws. */
  lemma {:induction false} GeneratedSampleDispersion(m: Maths, nu: real, theta: real, lambda: real, draws: nat -> real, start: nat, n: nat)
    requires SNConstraint(nu) && n > 0
    ensures SampleDispersion(Realisation(m, MakeDistributionGenerator(nu, theta, lambda).value, draws, start, n))
            == Pow(lambda, 2) * SampleDispersion(Realisation(m, MakeStandardGenerator(nu).value, draws, start, n))
  {
    var x := Realisation(m, MakeStandardGenerator(nu).value, draws, start, n);
    RealisationOfLocationScale(m, MakeStandardGenerator(nu).value, theta, lambda, draws, start, n);
    ImageDispersion(x, theta, lambda);
  }
}
