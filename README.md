# Fractional Brownian motion: the path integrator

This project models the path integrator of the `FractionalBrownianMotion`
process of the `stochastic` Python package. A realization of fractional
Brownian motion on `[0, t]` is built from `n` increments of fractional
Gaussian noise. The path is their running sum (numpy's `cumsum`). When the
`zero` flag is set (the default), a single `0` is inserted in front of it for
time `t = 0`. `sample(n, zero)` hands its arguments straight to
`_sample_fractional_brownian_motion`.

The noise generator belongs to the parent class and is random. In the model,
its draw for `n` increments is an input sequence `fgn` of exactly `n` reals.
Everything downstream of that draw is deterministic, and that is what is
proved.

Two modules:

- `CumulativeSum` gives the sequence meaning of `cumsum`. `CumSumFrom`
  accumulates from the left, in the order numpy adds. `Sum` over a prefix is
  the independent reference it is proved equal to. `Differences` (numpy's
  `diff`) is the inverse used in the round-trip lemmas.
- `FractionalBrownianMotion` holds `_sample_fractional_brownian_motion`,
  `sample` and the lemmas about the paths they return.

## Model

| member | source | states |
|---|---|---|
| CumulativeSum.CumSumFrom | stochastic/continuous/fractional_brownian_motion.py:52 | the accumulated running sum has one entry per increment |
| CumulativeSum.CumSumFromAt | stochastic/continuous/fractional_brownian_motion.py:52 | entry i of the left-to-right accumulation equals the start value plus the sum of increments 0..i |
| CumulativeSum.CumSum | stochastic/continuous/fractional_brownian_motion.py:52 | `cumsum` returns one entry per increment, entry i being the sum of increments 0..i |
| FractionalBrownianMotion.SampleFractionalBrownianMotion | stochastic/continuous/fractional_brownian_motion.py:49-56 | the path has n + 1 entries with `zero` and n without; with `zero` entry 0 is 0 and entry k is the sum of the first k increments; without it entry i is the sum of increments 0..i |
| FractionalBrownianMotion.Sample | stochastic/continuous/fractional_brownian_motion.py:58-64 | `sample(n, zero)` returns exactly what `_sample_fractional_brownian_motion(n, zero)` returns, with the same default `zero = true` |
| FractionalBrownianMotion.FirstElement | stochastic/continuous/fractional_brownian_motion.py:52-54 | for n >= 1 the first element is 0 with `zero` and the first increment without it |
| FractionalBrownianMotion.Step | stochastic/continuous/fractional_brownian_motion.py:52-54 | each later element is the previous element plus the increment between them (increment i - 1 with `zero`, increment i without) |
| FractionalBrownianMotion.LastElement | stochastic/continuous/fractional_brownian_motion.py:52-54 | whatever `zero` is, a non-empty path ends at the sum of all increments |
| FractionalBrownianMotion.ZeroOnlyPrefixes | stochastic/continuous/fractional_brownian_motion.py:53-54 | the `zero = true` path is the `zero = false` path with a single 0 in front, so dropping its first element gives the unanchored path |
| FractionalBrownianMotion.IncrementsRecovered | stochastic/continuous/fractional_brownian_motion.py:51-54 | the differences of the anchored path are exactly the increments |
| FractionalBrownianMotion.IncrementsRecoveredUnanchored | stochastic/continuous/fractional_brownian_motion.py:51-52 | the first element of the unanchored path followed by its differences is exactly the increment sequence |
| FractionalBrownianMotion.AnchoredPathFromDifferences | stochastic/continuous/fractional_brownian_motion.py:51-54 | every sequence starting at 0 is the anchored path of its own differences, so anchored paths and increment sequences correspond one to one |

## Left out

- The fractional Gaussian noise generator `_sample_fractional_gaussian_noise`
  (fractional_brownian_motion.py:51) and its Hosking and Davies–Harte
  algorithms. It belongs to the parent class `FractionalGaussianNoise`, which
  is not part of this model, and it is random and floating-point. Its output
  is the parameter `fgn`, and `requires |fgn| == n` stands for its promise to
  return `n` values.
- Parameter validation (`n >= 1`, `hurst` in (0, 1), `t > 0`). It happens in
  the parent class's constructor and sampler, which are not part of this
  model. The model is total in `n`: for `n = 0` it returns the empty path, or
  `[0]` with `zero`.
- The constructor `__init__` (lines 34-35). It only hands `t` and `hurst` to
  the parent class, and neither value is used by the path integrator.
- `__str__` and `__repr__` (lines 37-47). They only format `hurst` and `t`
  for display.
- Floating-point rounding. The model adds exact reals. `CumSumFrom` keeps
  numpy's left-to-right order of additions, but its equality with prefix sums
  holds only for exact arithmetic.
- The dtype of the inserted `0`. numpy converts the integer `0` to `0.0` of
  the array's float dtype. The model inserts the real `0.0`.
- Statistical properties of the increments: unit variance, the
  autocovariance kernel, and independence between calls. They are about
  distributions, not about the deterministic path computation.
- The mapping of index `i` to time `i * t / n`. It is not done in this file.
