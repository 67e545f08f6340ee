# Sinh-arcsinh-normal distributions and sample statistics, in Dafny

This project models two headers of a small C++ statistics lab and proves
properties of the model.

- `utils.hpp`: the sample-statistics engine and the sample builder. It
  covers the three `details::sample_*_helper` folds, `sample_mean`, both
  overloads of `sample_dispersion`, `sample_asymmetry_coefficient` and
  `sample_kurtosis_coefficient`, and `generate_distribution`.
- `distribution.hpp`: the distribution framework for the sinh-arcsinh-normal
  (SN) family. It covers the shape constraint `0 < nu < 2`, the standardised
  normal and SN densities, the SN generator, and the four factories. The
  factories are `make_standart_distribution_density`,
  `make_distribution_density`, `make_standart_distribution_generator` and
  `make_distribution_generator`. The last two of each pair wrap the standard
  callable in the location-scale map `theta + lambda * x`.

Floating point is idealised as `real`.

The files:

- `libm.dfy`: module `Libm`, the maths library the code calls.
  - `std::exp`, `sinh`, `cosh`, `asinh`, `pow(., 1.5)` and the constants
    `sqrt2` and `inv_sqrtpi` cannot be written exactly. They are fields of a
    `Maths` record that every function takes as a parameter.
  - The type `Maths` admits only libraries whose `sqrt2` is positive, so that
    `1.0 / sqrt2` is defined for every library.
  - The analytic facts some lemmas need are collected in the predicate
    `Faithful`, and only those lemmas require it. The facts are: `inv_sqrtpi`
    is positive, exp and cosh are positive, sinh is odd, cosh is even, and
    sinh inverts asinh.
  - Integer powers are exact (`Pow`).
- `distribution.dfy`: module `Distribution`.
  - A factory returns a `Result`. Its failure carries the
    `std::invalid_argument` message verbatim, spelling included.
  - A density callable is a Dafny function value.
  - A generator callable is a `Generator` value. It says how one
    standard-normal draw becomes a variate.
  - The function-local static engine is a `NormalSource` object, holding
    an abstract stream of standard-normal draws and a position in it.
  - `Invoke`, the generator's call operator, consumes exactly one draw.
- `statistics.dfy`: module `Statistics`.
  - Each `std::accumulate` fold is a left-to-right recursive sum.
  - Each statistic is a function over `seq<real>`.
  - The lemmas relate the statistics to one another and to location-scale
    images of a sample. The image of a sample under `y |-> theta + lambda * y`
    is defined element by element (`LocationScaleImage`); the image lemmas
    and `Sampling.RealisationOfLocationScale` are stated against it.
- `sampling.dfy`: module `Sampling`.
  - `generate_distribution` is a method with a loop that appends one
    generator call per step.
  - The lemmas connect the samples it builds to the statistics.

## Model

| member | source | states |
|---|---|---|
| Statistics.Sum | Module2/LR1/src/include/utils.hpp:69-72 | the `std::accumulate` of the elements from 0; `MeanBounds` bounds it through `SampleMean`, and `MeanCharacterisation` ties it to the linear deviation fold |
| Statistics.DeviationPowerSum | Module2/LR1/src/include/utils.hpp:19-60 | the fold `sum + pow(yi - mean, k)` that the three helpers perform for k = 2, 3, 4; its properties are stated by the helpers' ensures and by `SquareDeviationShift`, `FourthMomentBound`, `MirroredOddDeviationPowerSum` and `ImageDeviationPowerSum` |
| Statistics.SampleDispersionHelper | Module2/LR1/src/include/utils.hpp:19-32 | the sum of squared deviations is never negative, and is zero exactly when every element equals the given mean |
| Statistics.SampleAsymmetryHelper | Module2/LR1/src/include/utils.hpp:34-46 | the sum of cubed deviations is zero for a sample symmetric about the given mean (a sample constant at the mean is one such) |
| Statistics.SampleKurtosisHelper | Module2/LR1/src/include/utils.hpp:48-60 | the sum of fourth-power deviations is never negative, and is zero exactly when every element equals the given mean |
| Statistics.SampleMean | Module2/LR1/src/include/utils.hpp:63-75 | for a non-empty sample, the deviations from the mean sum to zero |
| Statistics.MeanCharacterisation | Module2/LR1/src/include/utils.hpp:63-75 | the mean is the one point about which the deviations sum to zero (both directions) |
| Statistics.MeanBounds | Module2/LR1/src/include/utils.hpp:63-75 | the mean lies between any lower and upper bound of the elements |
| Statistics.SampleDispersionGiven | Module2/LR1/src/include/utils.hpp:87-96 | the dispersion about any given mean is non-negative, and zero exactly when the sample is constant at that mean |
| Statistics.SampleDispersion | Module2/LR1/src/include/utils.hpp:77-85 | the one-argument form equals the two-argument form at the sample mean; it is non-negative and zero exactly for a constant sample |
| Statistics.DispersionAboutPoint | Module2/LR1/src/include/utils.hpp:77-96 | the dispersion about any point c is the dispersion about the mean plus (mean - c)^2 |
| Statistics.DispersionMinimalAtMean | Module2/LR1/src/include/utils.hpp:77-96 | the mean minimises the two-argument dispersion, and it is the only point that does |
| Statistics.DispersionMomentForm | Module2/LR1/src/include/utils.hpp:77-85 | the two-pass dispersion equals the mean of the squares minus the square of the mean |
| Statistics.SampleAsymmetryGiven | Module2/LR1/src/include/utils.hpp:110-120 | the three-argument asymmetry coefficient is zero when the sample is symmetric about the given mean |
| Statistics.SampleAsymmetry | Module2/LR1/src/include/utils.hpp:98-108 | the one-argument form, which writes out its own quotient, equals the three-argument form at the sample mean and the sample dispersion, and is zero for a sample symmetric about any point |
| Statistics.MirroredSampleStatistics | Module2/LR1/src/include/utils.hpp:98-108 | a sample symmetric about c has mean c and asymmetry coefficient zero |
| Statistics.SampleKurtosisGiven | Module2/LR1/src/include/utils.hpp:122-130 | the excess kurtosis is at least -3, and equals -3 exactly when every element equals the given mean; at the sample's own mean and dispersion it is at least -2 |
| Statistics.SampleKurtosis | Module2/LR1/src/include/utils.hpp:132-141 | the one-argument form equals the three-argument form at the sample mean and dispersion, and is never below -2 |
| Statistics.KurtosisBound | Module2/LR1/src/include/utils.hpp:48-60 | at the sample mean, the fourth-power sum is at least N times the squared dispersion, which is positive |
| Statistics.FourthMomentBound | Module2/LR1/src/include/utils.hpp:19-60 | Cauchy-Schwarz for the folds: N times the fourth-power sum is at least the squared sum of squares |
| Statistics.MirroredOddDeviationPowerSum | Module2/LR1/src/include/utils.hpp:34-46 | every odd power of the deviations of a sample symmetric about c sums to zero |
| Statistics.ConstantSampleStatistics | Module2/LR1/src/include/utils.hpp:19-60 | a constant sample has the constant as its mean and zero dispersion, and all three helpers return 0 at that mean |
| Statistics.SquareDeviationShift | Module2/LR1/src/include/utils.hpp:19-32 | moving the centre of the squared-deviation fold from a to b adds 2(a-b) times the linear fold plus N(a-b)^2 |
| Statistics.ImageDeviationPowerSum | Module2/LR1/src/include/utils.hpp:19-60 | the k-th power fold of the image about theta + lambda*c is lambda^k times the fold of the sample about c |
| Statistics.ImageMean | Module2/LR1/src/include/utils.hpp:63-75 | the mean of theta + lambda*y is theta + lambda times the mean of y |
| Statistics.ImageDispersion | Module2/LR1/src/include/utils.hpp:77-85 | the dispersion of theta + lambda*y is lambda^2 times the dispersion of y |
| Statistics.WorkedExample | Module2/LR1/src/include/utils.hpp:63-108 | for the sample 1, 2, 3 the mean is 2, the dispersion 2/3 and the asymmetry coefficient 0 |
| Sampling.Realisation | Module2/LR1/src/include/utils.hpp:144-153 | the N variates a generator makes from the N draws after a given engine position, in call order; `GenerateDistribution` returns it, and `RealisationSplits` and `RealisationOfLocationScale` state its properties |
| Sampling.GenerateDistribution | Module2/LR1/src/include/utils.hpp:144-153 | returns exactly N elements, and element i is the transform of the i-th draw after the engine's starting position, in call order (N = 0 gives the empty sequence); the engine advances by exactly N draws |
| Sampling.RealisationSplits | Module2/LR1/src/include/utils.hpp:144-153 | two builds in a row give the same elements as one build of the combined length |
| Sampling.RealisationOfLocationScale | Module2/LR1/src/include/utils.hpp:144-153 | a sample built with a location-scale generator is the location-scale image of the sample the wrapped generator builds from the same draws |
| Sampling.GeneratedSampleMean | Module2/LR1/src/include/distribution.hpp:102-111 | the mean of a sample from `make_distribution_generator` is theta + lambda times the mean of the standard generator's sample on the same draws |
| Sampling.GeneratedSampleDispersion | Module2/LR1/src/include/distribution.hpp:102-111 | the dispersion of a sample from `make_distribution_generator` is lambda^2 times that of the standard generator's sample on the same draws |
| Distribution.SNConstraint | Module2/LR1/src/include/distribution.hpp:55-64 | `distribution_constraint<SN>`: true exactly when 0 < nu < 2; the four factories' ensures gate success on it |
| Distribution.NormalDensity | Module2/LR1/src/include/distribution.hpp:34-42 | 1/sqrt2 * inv_sqrtpi * exp(-x^2 / 2); `NormalDensitySymmetric` and `NormalDensityPositive` state its properties |
| Distribution.SNArgument | Module2/LR1/src/include/distribution.hpp:49-50 | the change of variable (2/nu) * sinh(x); `GeneratorInvertsDensityTransform` shows the SN generator inverts it |
| Distribution.SNDensity | Module2/LR1/src/include/distribution.hpp:44-52 | (2/nu) * phi((2/nu) * sinh(x)) * cosh(x); `SNDensitySymmetric` and `SNDensityPositive` state its properties |
| Distribution.SNVariate | Module2/LR1/src/include/distribution.hpp:67-79 | the variate asinh(nu * z / 2) of one standard-normal draw z; `GeneratorInvertsDensityTransform` relates it to the density |
| Distribution.Transform | Module2/LR1/src/include/distribution.hpp:95-110 | the variate a generator callable returns for one draw, through any number of location-scale wrappers; `DistributionGeneratorTransform` and `Invoke` state its properties |
| Distribution.NormalDensitySymmetric | Module2/LR1/src/include/distribution.hpp:34-42 | the standard normal density is even |
| Distribution.NormalDensityPositive | Module2/LR1/src/include/distribution.hpp:34-42 | the standard normal density is positive |
| Distribution.SNDensitySymmetric | Module2/LR1/src/include/distribution.hpp:44-52 | the standardised SN density is even in x |
| Distribution.SNDensityPositive | Module2/LR1/src/include/distribution.hpp:44-52 | the standardised SN density is positive whenever the constraint holds |
| Distribution.MakeStandardDensity | Module2/LR1/src/include/distribution.hpp:121-132 | succeeds exactly when 0 < nu < 2, otherwise fails with the constraint message; on success the callable is the SN density at nu |
| Distribution.MakeDistributionDensity | Module2/LR1/src/include/distribution.hpp:135-144 | succeeds exactly when the standard factory does and fails with the same error otherwise; on success its value at x is the standard density at (x - theta)/lambda, divided by lambda |
| Distribution.DefaultDensityIsStandard | Module2/LR1/src/include/distribution.hpp:135-144 | with the defaults theta = 0 and lambda = 1, the wrapped density factory succeeds when the standard one does, with the same density values |
| Distribution.DensityAtImage | Module2/LR1/src/include/distribution.hpp:139-143 | the wrapped density at theta + lambda*x is the standard density at x divided by lambda |
| Distribution.DistributionDensitySign | Module2/LR1/src/include/distribution.hpp:139-143 | the wrapped density is positive everywhere for lambda > 0 and negative everywhere for lambda < 0 |
| Distribution.MakeStandardGenerator | Module2/LR1/src/include/distribution.hpp:88-99 | succeeds exactly when 0 < nu < 2, otherwise fails with the constraint message; on success the callable is the SN generator at nu |
| Distribution.MakeDistributionGenerator | Module2/LR1/src/include/distribution.hpp:102-111 | succeeds exactly when the standard factory does and fails with the same error otherwise; on success the callable wraps the SN generator at nu in theta + lambda * x |
| Distribution.DistributionGeneratorTransform | Module2/LR1/src/include/distribution.hpp:106-110 | a variate of the wrapped generator is theta + lambda times the standard variate of the same draw |
| Distribution.DefaultGeneratorIsStandard | Module2/LR1/src/include/distribution.hpp:102-111 | with the defaults theta = 0 and lambda = 1, the wrapped generator factory succeeds when the standard one does, with the same variates |
| Distribution.GeneratorInvertsDensityTransform | Module2/LR1/src/include/distribution.hpp:67-79 | applying the density's change of variable (2/nu) sinh to the SN variate asinh(nu z / 2) gives back the draw z |
| Distribution.NormalSource.constructor | Module2/LR1/src/include/distribution.hpp:72-74 | a fresh engine is at the start of its stream of draws |
| Distribution.NormalSource.Next | Module2/LR1/src/include/distribution.hpp:76 | `normal_gen(gen)` returns the draw at the current position and advances the engine by one |
| Distribution.Invoke | Module2/LR1/src/include/distribution.hpp:95-110 | one call of a generator callable consumes exactly one draw and returns that draw's transform under the generator |

## Left out

- Plotting (`DensityDistributionPlot` and `DistributionHist`, utils.hpp:155-183) is left out. It consists of matplot user-interface calls.
- `main.cpp` is not part of this model. It is a demonstration driver with console output.
- `concepts.hpp` is not part of this model. It holds compile-time type constraints with no run-time behaviour.
- The transcendental functions and the constants are parameters (a `Maths` record). Their values are never computed. Every library is assumed to have sqrt2 > 0 (the type `Maths`); the lemmas that require `Faithful` also assume the facts it lists, and no other facts are assumed.
- IEEE rounding, overflow and the `static_cast` conversions are not modelled. Every value is an exact `real`.
- The random engine (`std::random_device`, `mt19937`, `normal_distribution`) is an abstract stream of draws (`NormalSource.draws`). No statement is made about the distribution of the draws or of the variates.
- The standard-normal family is left out of the factories. The source has no `distribution_constraint` or `standart_distribution_generator` specialisation for it. Its density's `operator()` takes one argument, while the factory lambda passes two (distribution.hpp:37, 130). Only its density function is modelled, as the building block of the SN density.
- The `distribution_type` template dispatch is not modelled. The factories are modelled only for the SN family.
- Statistics.SampleMean, and every other statistic, requires a non-empty sample. The source divides by N = 0 without a check (utils.hpp:68-74).
- Distribution.MakeDistributionDensity requires lambda != 0. The source divides by lambda without a check (distribution.hpp:141-142). The generator side never divides, so it has no such requirement.
- Statistics.SampleAsymmetryGiven requires `pow(dispersion, 1.5) != 0`. The source divides anyway, and the result is an IEEE infinity or NaN.
- Statistics.SampleKurtosisGiven requires dispersion != 0, for the same reason.
- Distribution.SNDensity and Distribution.SNArgument require nu != 0. Through the factories this always holds, because the constraint is checked first. A direct call of the functor with nu = 0 would divide by zero.
- The generator callables are `std::function` closures. They are modelled as `Generator` values, with `Invoke` as their call operator. Moving a closure into the wrapper (`std::move(generator)`) has no counterpart.
