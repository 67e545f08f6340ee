/** The sample-statistics engine: the mean, the population dispersion, the
    asymmetry (skewness) coefficient and the excess kurtosis of a sample, each
    statistic in two forms, one computing the mean and dispersion itself and
    one taking them as arguments.

    Every statistic divides by the sample size, so each requires a non-empty
    sample; the asymmetry and kurtosis coefficients also divide by a power of
    the dispersion, which must then be non-zero.
 */
module Statistics {
  import opened Libm

  // ---------------------------------------------------------------------------
  // The folds

  /** `std::accumulate` from 0 with `+`: the left fold of the sample. */
  function Sum(s: seq<real>): real
    decreases |s|
  {
    if |s| == 0 then 0.0 else Sum(s[..|s| - 1]) + s[|s| - 1]
  }

  /** The accumulation shared by the three `details::sample_*_helper`s:
      the sum of `(yi - mean)^k`, left to right. */
  function DeviationPowerSum(s: seq<real>, mean: real, k: nat): real
    decreases |s|
  {
    if |s| == 0 then 0.0 else DeviationPowerSum(s[..|s| - 1], mean, k) + Pow(s[|s| - 1] - mean, k)
  }

  /** Every element of the sample equals `c`. */
  predicate Constant(s: seq<real>, c: real) {
    forall i :: 0 <= i < |s| ==> s[i] == c
  }

  /** The sample is symmetric about `c`: the i-th element from the front and
      the i-th from the back lie at the same distance on either side of `c`. */
  predicate Mirrored(s: seq<real>, c: real) {
    forall i :: 0 <= i < |s| ==> s[i] - c == c - s[|s| - 1 - i]
  }

  /** `details::sample_dispersion_helper`: the sum of squared deviations. */
  function SampleDispersionHelper(s: seq<real>, mean: real): (r: real)
    ensures r >= 0.0
    ensures r == 0.0 <==> Constant(s, mean)
  {
    EvenDeviationPowerSum(s, mean, 2);
    DeviationPowerSum(s, mean, 2)
  }

  /** `details::sample_asymmetry_coefficient_helper`: the sum of cubed deviations. */
  function SampleAsymmetryHelper(s: seq<real>, mean: real): (r: real)
    ensures Mirrored(s, mean) ==> r == 0.0
  {
    if Mirrored(s, mean) then
      MirroredOddDeviationPowerSum(s, mean, 3);
      DeviationPowerSum(s, mean, 3)
    else
      DeviationPowerSum(s, mean, 3)
  }

  /** `details::sample_kurtosis_coefficient_helper`: the sum of fourth-power deviations. */
  function SampleKurtosisHelper(s: seq<real>, mean: real): (r: real)
    ensures r >= 0.0
    ensures r == 0.0 <==> Constant(s, mean)
  {
    EvenDeviationPowerSum(s, mean, 4);
    DeviationPowerSum(s, mean, 4)
  }

  // ---------------------------------------------------------------------------
  // The statistics

  /** `sample_mean`: the sum divided by the sample size. The deviations from
      it sum to zero (and `MeanCharacterisation` shows no other point has
      that property). */
  function SampleMean(s: seq<real>): (r: real)
    requires |s| > 0
    ensures DeviationPowerSum(s, r, 1) == 0.0
  {
    var n := |s| as real;
    var mean := Sum(s) / n;
    LinearDeviationSum(s, mean);
    assert n * mean == Sum(s);
    mean
  }

  /** `sample_dispersion(sample, mean)`: the squared deviations from the given
      mean, averaged over the sample size. */
  function SampleDispersionGiven(s: seq<real>, mean: real): (r: real)
    requires |s| > 0
    ensures r >= 0.0
    ensures r == 0.0 <==> Constant(s, mean)
  {
    var n := |s| as real;
    SampleDispersionHelper(s, mean) / n
  }

  /** `sample_dispersion(sample)`: the population variance. It is the two-argument
      form at the sample mean, never negative, and zero exactly for a constant sample. */
  function SampleDispersion(s: seq<real>): (r: real)
    requires |s| > 0
    ensures r == SampleDispersionGiven(s, SampleMean(s))
    ensures r >= 0.0
    ensures r == 0.0 <==> Constant(s, s[0])
  {
    var mean := SampleMean(s);
    var n := |s| as real;
    if Constant(s, s[0]) then
      ConstantSampleMean(s, s[0]);
      SampleDispersionHelper(s, mean) / n
    else
      SampleDispersionHelper(s, mean) / n
  }

  /** `sample_asymmetry_coefficient(sample, mean, dispersion)`: the cubed
      deviations over `dispersion^1.5 * N`. It is zero when the sample is
      symmetric about the given mean. */
  function SampleAsymmetryGiven(m: Maths, s: seq<real>, mean: real, dispersion: real): (r: real)
    requires |s| > 0 && RealPow(m, dispersion, 1.5) != 0.0
    ensures Mirrored(s, mean) ==> r == 0.0
  {
    var n := |s| as real;
    SampleAsymmetryHelper(s, mean) / (RealPow(m, dispersion, 1.5) * n)
  }

  /** `sample_asymmetry_coefficient(sample)`: computes the mean and the
      dispersion about it and writes out the cubed deviations over
      `dispersion^1.5 * N` itself. It agrees with the three-argument form at
      those moments, and is zero for a sample symmetric about any point. */
  function SampleAsymmetry(m: Maths, s: seq<real>): (r: real)
    requires |s| > 0 && RealPow(m, SampleDispersion(s), 1.5) != 0.0
    ensures r == SampleAsymmetryGiven(m, s, SampleMean(s), SampleDispersion(s))
    ensures forall c :: Mirrored(s, c) ==> r == 0.0
  {
    var mean := SampleMean(s);
    var dispersion := SampleDispersionGiven(s, mean);
    var n := |s| as real;
    forall c | Mirrored(s, c) ensures c == mean {
      MirroredOddDeviationPowerSum(s, c, 1);
      MeanCharacterisation(s, c);
    }
    SampleAsymmetryHelper(s, mean) / (RealPow(m, dispersion, 1.5) * n)
  }

  /** `sample_kurtosis_coefficient(sample, mean, dispersion)`: the fourth-power
      deviations over `N * dispersion^2`, minus 3. It is at least -3, and
      exactly -3 when every element equals the given mean; at the sample's own
      mean and dispersion it is at least -2. */
  function SampleKurtosisGiven(s: seq<real>, mean: real, dispersion: real): (r: real)
    requires |s| > 0 && dispersion != 0.0
    ensures r >= -3.0
    ensures r == -3.0 <==> Constant(s, mean)
    ensures mean == SampleMean(s) && dispersion == SampleDispersionGiven(s, mean) ==> r >= -2.0
  {
    var n := |s| as real;
    PowSmall(dispersion);
    assert n * Pow(dispersion, 2) > 0.0;
    var q := SampleKurtosisHelper(s, mean) / (n * Pow(dispersion, 2));
    assert q * (n * Pow(dispersion, 2)) == SampleKurtosisHelper(s, mean);
    assert (q - 3.0) + 3.0 == q;
    assert q >= 0.0;
    assert q == 0.0 <==> SampleKurtosisHelper(s, mean) == 0.0;
    if mean == SampleMean(s) && dispersion == SampleDispersionGiven(s, mean) then
      KurtosisBound(s, mean);
      QuotientAtLeastOne(SampleKurtosisHelper(s, mean), n * Pow(dispersion, 2));
      q - 3.0
    else
      q - 3.0
  }

  /** `sample_kurtosis_coefficient(sample)`: the three-argument form at the
      sample's own mean and dispersion. The excess kurtosis of a sample is
      never below -2. */
  function SampleKurtosis(s: seq<real>): (r: real)
    requires |s| > 0 && SampleDispersion(s) != 0.0
    ensures r == SampleKurtosisGiven(s, SampleMean(s), SampleDispersion(s))
    ensures r >= -2.0
  {
    var mean := SampleMean(s);
    var dispersion := SampleDispersionGiven(s, mean);
    SampleKurtosisGiven(s, mean, dispersion)
  }

  // ---------------------------------------------------------------------------
  // Lemmas about the folds

  lemma {:induction false} SumBounds(s: seq<real>, lo: real, hi: real)
    requires forall i :: 0 <= i < |s| ==> lo <= s[i] <= hi
    ensures (|s| as real) * lo <= Sum(s) <= (|s| as real) * hi
    decreases |s|
  {
    if |s| > 0 {
      var k := (|s| - 1) as real;
      SumBounds(s[..|s| - 1], lo, hi);
      assert (|s| as real) == k + 1.0;
      assert Sum(s) == Sum(s[..|s| - 1]) + s[|s| - 1];
      SuccessorTimes(k, lo);
      SuccessorTimes(k, hi);
    }
  }

  /** The deviations from `c` sum to the sum minus `N * c`. */
  lemma {:induction false} LinearDeviationSum(s: seq<real>, c: real)
    ensures DeviationPowerSum(s, c, 1) == Sum(s) - (|s| as real) * c
    decreases |s|
  {
    if |s| > 0 {
      LinearDeviationSum(s[..|s| - 1], c);
      PowSmall(s[|s| - 1] - c);
    }
  }

  lemma {:induction false} ConstantDeviationPowerSum(s: seq<real>, c: real, k: nat)
    requires k > 0 && Constant(s, c)
    ensures DeviationPowerSum(s, c, k) == 0.0
    decreases |s|
  {
    if |s| > 0 {
      ConstantDeviationPowerSum(s[..|s| - 1], c, k);
      PowZero(s[|s| - 1] - c, k);
    }
  }

  /** A sum of even powers of deviations is never negative, and is zero
      exactly when every deviation is. */
  lemma {:induction false} EvenDeviationPowerSum(s: seq<real>, c: real, k: nat)
    requires k > 0 && k % 2 == 0
    ensures DeviationPowerSum(s, c, k) >= 0.0
    ensures DeviationPowerSum(s, c, k) == 0.0 <==> Constant(s, c)
    decreases |s|
  {
    if |s| > 0 {
      var t, y := s[..|s| - 1], s[|s| - 1];
      EvenDeviationPowerSum(t, c, k);
      PowEvenNonNegative(y - c, k);
      PowZero(y - c, k);
      assert Constant(s, c) <==> Constant(t, c) && y == c by {
        if Constant(t, c) && y == c {
          forall i | 0 <= i < |s| ensures s[i] == c {
            if i < |s| - 1 { assert s[i] == t[i]; }
          }
        }
      }
    }
  }

  lemma {:induction false} DeviationPowerSumPrepend(a: real, t: seq<real>, c: real, k: nat)
    ensures DeviationPowerSum([a] + t, c, k) == Pow(a - c, k) + DeviationPowerSum(t, c, k)
    decreases |t|
  {
    var s := [a] + t;
    if |t| == 0 {
      assert s[..|s| - 1] == [];
    } else {
      assert s[..|s| - 1] == [a] + t[..|t| - 1];
      DeviationPowerSumPrepend(a, t[..|t| - 1], c, k);
    }
  }

  /** An odd power of the deviations of a sample symmetric about `c` sums to zero. */
  lemma {:induction false} MirroredOddDeviationPowerSum(s: seq<real>, c: real, k: nat)
    requires k % 2 == 1 && Mirrored(s, c)
    ensures DeviationPowerSum(s, c, k) == 0.0
    decreases |s|
  {
    var n := |s|;
    if n == 1 {
      assert s[0] - c == c - s[0];
      PowZero(s[0] - c, k);
      assert s[..0] == [];
    } else if n > 1 {
      var a, b, mid := s[0], s[n - 1], s[1..n - 1];
      forall i | 0 <= i < |mid| ensures mid[i] - c == c - mid[|mid| - 1 - i] {
        assert mid[i] == s[i + 1];
        assert mid[|mid| - 1 - i] == s[n - 1 - (i + 1)];
      }
      MirroredOddDeviationPowerSum(mid, c, k);
      assert s[..n - 1] == [a] + mid;
      DeviationPowerSumPrepend(a, mid, c, k);
      assert b - c == -(a - c) by {
        assert s[0] - c == c - s[n - 1 - 0];
      }
      PowOdd(a - c, k);
    }
  }

  lemma SquareShift(y: real, a: real, b: real)
    ensures Pow(y - b, 2) == Pow(y - a, 2) + 2.0 * Mul(a - b, Pow(y - a, 1)) + Pow(a - b, 2)
  {
    PowSmall(y - a);
    PowSmall(y - b);
    PowSmall(a - b);
    var u, v := y - a, a - b;
    assert y - b == u + v;
    assert (u + v) * (u + v) == u * u + 2.0 * (v * u) + v * v;
  }

  lemma MulSuccessor(k: real, w: real, n: real)
    requires n == k + 1.0
    ensures Mul(n, w) == Mul(k, w) + w
  {
  }

  /** Shifting the centre of the squared deviations from `a` to `b`. */
  lemma {:induction false} SquareDeviationShift(s: seq<real>, a: real, b: real)
    ensures DeviationPowerSum(s, b, 2)
            == DeviationPowerSum(s, a, 2) + 2.0 * Mul(a - b, DeviationPowerSum(s, a, 1)) + Mul(|s| as real, Pow(a - b, 2))
    decreases |s|
  {
    if |s| > 0 {
      var t, y := s[..|s| - 1], s[|s| - 1];
      SquareDeviationShift(t, a, b);
      SquareShift(y, a, b);
      MulDistributes(a - b, DeviationPowerSum(t, a, 1), Pow(y - a, 1), DeviationPowerSum(s, a, 1));
      MulSuccessor(|t| as real, Pow(a - b, 2), |s| as real);
    } else {
      assert Mul(a - b, DeviationPowerSum(s, a, 1)) == 0.0;
      assert Mul(|s| as real, Pow(a - b, 2)) == 0.0;
    }
  }

  lemma CauchyStep(n: real, a: real, b: real, x: real)
    requires n >= 0.0 && a >= 0.0 && n * a >= b * b
    requires n == 0.0 ==> b == 0.0
    ensures (n + 1.0) * (a + x * x) >= (b + x) * (b + x)
  {
    if n > 0.0 {
      var q := b - n * x;
      assert q * q >= 0.0;
      assert n * (a + n * x * x - 2.0 * b * x) >= q * q by {
        assert n * (a + n * x * x - 2.0 * b * x) == n * a + (n * x) * (n * x) - 2.0 * b * (n * x);
        assert q * q == b * b - 2.0 * b * (n * x) + (n * x) * (n * x);
      }
      assert a + n * x * x - 2.0 * b * x >= 0.0;
      assert (n + 1.0) * (a + x * x) - (b + x) * (b + x)
             == (n * a - b * b) + (a + n * x * x - 2.0 * b * x);
    }
  }

  /** The Cauchy-Schwarz inequality for squared deviations:
      N * sum (y - c)^4 >= (sum (y - c)^2)^2. */
  lemma {:induction false} FourthMomentBound(s: seq<real>, c: real)
    ensures (|s| as real) * DeviationPowerSum(s, c, 4) >= DeviationPowerSum(s, c, 2) * DeviationPowerSum(s, c, 2)
    decreases |s|
  {
    if |s| > 0 {
      var t, y := s[..|s| - 1], s[|s| - 1];
      FourthMomentBound(t, c);
      EvenDeviationPowerSum(t, c, 4);
      PowSmall(y - c);
      var x := (y - c) * (y - c);
      assert Pow(y - c, 4) == x * x;
      assert Pow(y - c, 2) == x;
      CauchyStep(|t| as real, DeviationPowerSum(t, c, 4), DeviationPowerSum(t, c, 2), x);
    }
  }

  lemma SuccessorTimes(k: real, w: real)
    ensures (k + 1.0) * w == k * w + w
  {
  }

  lemma QuotientShift(a: real, b: real, n: real)
    requires n > 0.0
    ensures (a + Mul(n, b)) / n == a / n + b
  {
  }

  lemma QuotientAtLeastOne(a: real, b: real)
    requires b > 0.0 && a >= b
    ensures a / b >= 1.0
  {
  }

  lemma CauchyQuotient(n: real, s2: real, s4: real, d: real)
    requires n > 0.0 && d == s2 / n && d != 0.0 && n * s4 >= s2 * s2
    ensures n * Pow(d, 2) > 0.0
    ensures s4 >= n * Pow(d, 2)
  {
    PowSmall(d);
    assert s2 == n * d;
    assert s2 * s2 == n * (n * (d * d));
    assert d * d > 0.0;
    assert n * (d * d) > 0.0;
    assert n * s4 >= n * (n * (d * d));
  }

  /** At the sample mean the fourth-power sum is at least `N * dispersion^2`. */
  lemma {:induction false} KurtosisBound(s: seq<real>, mean: real)
    requires |s| > 0 && mean == SampleMean(s) && SampleDispersionGiven(s, mean) != 0.0
    ensures SampleKurtosisHelper(s, mean) >= (|s| as real) * Pow(SampleDispersionGiven(s, mean), 2)
    ensures (|s| as real) * Pow(SampleDispersionGiven(s, mean), 2) > 0.0
  {
    var n := |s| as real;
    var s2, s4 := DeviationPowerSum(s, mean, 2), DeviationPowerSum(s, mean, 4);
    FourthMomentBound(s, mean);
    assert SampleDispersionGiven(s, mean) == s2 / n;
    CauchyQuotient(n, s2, s4, SampleDispersionGiven(s, mean));
  }

  // ---------------------------------------------------------------------------
  // Lemmas about the statistics

  /** The mean is the one point about which the deviations sum to zero. */
  lemma {:induction false} MeanCharacterisation(s: seq<real>, c: real)
    requires |s| > 0
    ensures DeviationPowerSum(s, c, 1) == 0.0 <==> c == SampleMean(s)
  {
    var n := |s| as real;
    LinearDeviationSum(s, c);
    assert c == Sum(s) / n <==> n * c == Sum(s);
  }

  /** The mean lies between any lower and upper bound of the sample. */
  lemma {:induction false} MeanBounds(s: seq<real>, lo: real, hi: real)
    requires |s| > 0
    requires forall i :: 0 <= i < |s| ==> lo <= s[i] <= hi
    ensures lo <= SampleMean(s) <= hi
  {
    var n := |s| as real;
    SumBounds(s, lo, hi);
    assert SampleMean(s) == Sum(s) / n;
  }

  lemma {:induction false} ConstantSampleMean(s: seq<real>, c: real)
    requires |s| > 0 && Constant(s, c)
    ensures SampleMean(s) == c
  {
    ConstantDeviationPowerSum(s, c, 1);
    MeanCharacterisation(s, c);
  }

  /** A constant sample has the constant as its mean, zero dispersion, and
      zero third- and fourth-power deviation sums. */
  lemma {:induction false} ConstantSampleStatistics(s: seq<real>, c: real)
    requires |s| > 0 && Constant(s, c)
    ensures SampleMean(s) == c
    ensures SampleDispersion(s) == 0.0
    ensures SampleDispersionHelper(s, c) == 0.0
    ensures SampleAsymmetryHelper(s, c) == 0.0
    ensures SampleKurtosisHelper(s, c) == 0.0
  {
    ConstantSampleMean(s, c);
  }

  /** The dispersion about any point is the dispersion about the mean plus the
      squared distance from the point to the mean. */
  lemma {:induction false} DispersionAboutPoint(s: seq<real>, c: real)
    requires |s| > 0
    ensures SampleDispersionGiven(s, c) == SampleDispersion(s) + Pow(SampleMean(s) - c, 2)
  {
    SquareDeviationShift(s, SampleMean(s), c);
    assert Mul(SampleMean(s) - c, DeviationPowerSum(s, SampleMean(s), 1)) == 0.0;
    QuotientShift(DeviationPowerSum(s, SampleMean(s), 2), Pow(SampleMean(s) - c, 2), |s| as real);
  }

  /** Among all centres the mean gives the least dispersion, and only the mean gives it. */
  lemma {:induction false} DispersionMinimalAtMean(s: seq<real>, c: real)
    requires |s| > 0
    ensures SampleDispersion(s) <= SampleDispersionGiven(s, c)
    ensures SampleDispersion(s) == SampleDispersionGiven(s, c) <==> c == SampleMean(s)
  {
    DispersionAboutPoint(s, c);
    PowEvenNonNegative(SampleMean(s) - c, 2);
    PowZero(SampleMean(s) - c, 2);
  }

  /** In exact arithmetic the two-pass dispersion equals the one-pass
      "mean of squares minus square of mean" formula. */
  lemma {:induction false} DispersionMomentForm(s: seq<real>)
    requires |s| > 0
    ensures SampleDispersion(s) == DeviationPowerSum(s, 0.0, 2) / (|s| as real) - SampleMean(s) * SampleMean(s)
  {
    DispersionAboutPoint(s, 0.0);
    PowSmall(SampleMean(s) - 0.0);
  }

  /** A sample symmetric about `c` has mean `c` and zero asymmetry. */
  lemma {:induction false} MirroredSampleStatistics(m: Maths, s: seq<real>, c: real)
    requires |s| > 0 && Mirrored(s, c)
    ensures SampleMean(s) == c
    ensures RealPow(m, SampleDispersion(s), 1.5) != 0.0 ==> SampleAsymmetry(m, s) == 0.0
  {
    MirroredOddDeviationPowerSum(s, c, 1);
    MeanCharacterisation(s, c);
  }

  // ---------------------------------------------------------------------------
  // Location-scale images of a sample

  /** The sample theta + lambda * yi, element by element. */
  function LocationScaleImage(s: seq<real>, theta: real, lambda: real): (r: seq<real>)
    ensures |r| == |s|
    ensures forall i :: 0 <= i < |s| ==> r[i] == Affine(theta, lambda, s[i])
  {
    seq(|s|, i requires 0 <= i < |s| => Affine(theta, lambda, s[i]))
  }

  lemma MulDistributes(p: real, a: real, b: real, t: real)
    requires t == a + b
    ensures Mul(p, t) == Mul(p, a) + Mul(p, b)
  {
  }

  lemma {:induction false} PowScale(l: real, u: real, v: real, k: nat)
    requires v == Mul(l, u)
    ensures Pow(v, k) == Mul(Pow(l, k), Pow(u, k))
  {
    PowMul(l, u, k);
  }

  /** The terms (yi - c)^k of the fold, as a sequence. */
  function DeviationPowers(s: seq<real>, c: real, k: nat): (r: seq<real>)
    ensures |r| == |s|
    decreases |s|
  {
    if |s| == 0 then [] else DeviationPowers(s[..|s| - 1], c, k) + [Pow(s[|s| - 1] - c, k)]
  }

  lemma {:induction false} DeviationPowersAt(s: seq<real>, c: real, k: nat, i: nat)
    requires i < |s|
    ensures DeviationPowers(s, c, k)[i] == Pow(s[i] - c, k)
    decreases |s|
  {
    if i < |s| - 1 {
      DeviationPowersAt(s[..|s| - 1], c, k, i);
    }
  }

  lemma {:induction false} DeviationPowerSumIsSum(s: seq<real>, c: real, k: nat)
    ensures DeviationPowerSum(s, c, k) == Sum(DeviationPowers(s, c, k))
    decreases |s|
  {
    if |s| > 0 {
      DeviationPowerSumIsSum(s[..|s| - 1], c, k);
    }
  }

  /** Scaling every term of a sum by `p` scales the sum by `p`. */
  lemma {:induction false} SumScaled(u: seq<real>, v: seq<real>, p: real)
    requires |v| == |u|
    requires forall i :: 0 <= i < |u| ==> v[i] == Mul(p, u[i])
    ensures Sum(v) == Mul(p, Sum(u))
    decreases |u|
  {
    if |u| > 0 {
      var n := |u| - 1;
      SumScaled(u[..n], v[..n], p);
      MulDistributes(p, Sum(u[..n]), u[n], Sum(u));
    }
  }

  lemma {:induction false} ScaledDeviationPowerAt(s: seq<real>, r: seq<real>, c: real, d: real, lambda: real, k: nat, i: nat)
    requires i < |s| == |r|
    requires r[i] - d == Mul(lambda, s[i] - c)
    ensures DeviationPowers(r, d, k)[i] == Mul(Pow(lambda, k), DeviationPowers(s, c, k)[i])
  {
    DeviationPowersAt(s, c, k, i);
    DeviationPowersAt(r, d, k, i);
    PowScale(lambda, s[i] - c, r[i] - d, k);
  }

  /** If every deviation of `r` from `d` is lambda times the matching deviation
      of `s` from `c`, the k-th power deviations scale by lambda^k. */
  lemma {:induction false} ScaledDeviationPowerSum(s: seq<real>, r: seq<real>, c: real, d: real, lambda: real, k: nat)
    requires |r| == |s|
    requires forall i :: 0 <= i < |s| ==> r[i] - d == Mul(lambda, s[i] - c)
    ensures DeviationPowerSum(r, d, k) == Mul(Pow(lambda, k), DeviationPowerSum(s, c, k))
  {
    forall i | 0 <= i < |s|
      ensures DeviationPowers(r, d, k)[i] == Mul(Pow(lambda, k), DeviationPowers(s, c, k)[i])
    {
      ScaledDeviationPowerAt(s, r, c, d, lambda, k, i);
    }
    SumScaled(DeviationPowers(s, c, k), DeviationPowers(r, d, k), Pow(lambda, k));
    DeviationPowerSumIsSum(s, c, k);
    DeviationPowerSumIsSum(r, d, k);
  }

  lemma ImageDeviation(s: seq<real>, theta: real, lambda: real, c: real, d: real, i: nat)
    requires i < |s| && d == theta + lambda * c
    ensures LocationScaleImage(s, theta, lambda)[i] - d == Mul(lambda, s[i] - c)
  {
  }

  /** The k-th power deviations of the image about the image `d` of `c` are
      lambda^k times those of the sample about `c`. */
  lemma {:induction false} ImageDeviationPowerSum(s: seq<real>, c: real, d: real, theta: real, lambda: real, k: nat)
    requires d == theta + lambda * c
    ensures DeviationPowerSum(LocationScaleImage(s, theta, lambda), d, k) == Mul(Pow(lambda, k), DeviationPowerSum(s, c, k))
  {
    forall i | 0 <= i < |s| ensures LocationScaleImage(s, theta, lambda)[i] - d == Mul(lambda, s[i] - c) {
      ImageDeviation(s, theta, lambda, c, d, i);
    }
    ScaledDeviationPowerSum(s, LocationScaleImage(s, theta, lambda), c, d, lambda, k);
  }

  /** The mean of the image is the image of the mean. */
  lemma {:induction false} ImageMean(s: seq<real>, theta: real, lambda: real)
    requires |s| > 0
    ensures SampleMean(LocationScaleImage(s, theta, lambda)) == theta + lambda * SampleMean(s)
  {
    ImageDeviationPowerSum(s, SampleMean(s), theta + lambda * SampleMean(s), theta, lambda, 1);
    MeanCharacterisation(LocationScaleImage(s, theta, lambda), theta + lambda * SampleMean(s));
  }

  lemma ScaledQuotient(p: real, h: real, q: real, n: real)
    requires n > 0.0 && q == Mul(p, h)
    ensures q / n == Mul(p, h / n)
  {
  }

  /** The dispersion of the image is lambda^2 times the dispersion. */
  lemma {:induction false} ImageDispersion(s: seq<real>, theta: real, lambda: real)
    requires |s| > 0
    ensures SampleDispersion(LocationScaleImage(s, theta, lambda)) == Pow(lambda, 2) * SampleDispersion(s)
  {
    ImageMean(s, theta, lambda);
    ImageDeviationPowerSum(s, SampleMean(s), SampleMean(LocationScaleImage(s, theta, lambda)), theta, lambda, 2);
    ScaledQuotient(Pow(lambda, 2), DeviationPowerSum(s, SampleMean(s), 2),
                   DeviationPowerSum(LocationScaleImage(s, theta, lambda), SampleMean(LocationScaleImage(s, theta, lambda)), 2),
                   |s| as real);
    assert Mul(Pow(lambda, 2), SampleDispersion(s)) == Pow(lambda, 2) * SampleDispersion(s);
  }

  /** The worked example: for the sample 1, 2, 3 the mean is 2, the dispersion
      is 2/3 and the asymmetry coefficient is 0. */
  lemma WorkedExample(m: Maths)
    requires RealPow(m, 2.0 / 3.0, 1.5) != 0.0
    ensures SampleMean([1.0, 2.0, 3.0]) == 2.0
    ensures SampleDispersion([1.0, 2.0, 3.0]) == 2.0 / 3.0
    ensures SampleAsymmetry(m, [1.0, 2.0, 3.0]) == 0.0
  {
    var s := [1.0, 2.0, 3.0];
    assert s[..2] == [1.0, 2.0];
    assert [1.0, 2.0][..1] == [1.0];
    assert [1.0][..0] == [];
    assert Sum([1.0]) == 1.0;
    assert Sum([1.0, 2.0]) == 3.0;
    assert Sum(s) == 6.0;
    assert SampleMean(s) == 2.0;
    PowSmall(-1.0);
    PowSmall(0.0);
    PowSmall(1.0);
    assert DeviationPowerSum([1.0], 2.0, 2) == 1.0;
    assert DeviationPowerSum([1.0, 2.0], 2.0, 2) == 1.0;
    assert DeviationPowerSum(s, 2.0, 2) == 2.0;
    assert Mirrored(s, 2.0);
    MirroredSampleStatistics(m, s, 2.0);
  }
}
