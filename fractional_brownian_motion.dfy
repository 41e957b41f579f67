/** The path integrator of `FractionalBrownianMotion`: a realization of
    fractional Brownian motion is the running sum of a draw of fractional
    Gaussian noise, optionally anchored at 0 for t = 0.

    The noise generator itself lives in the parent class and is random; here its
    draw for `n` increments is the parameter `fgn`, which has exactly `n` values. */
module FractionalBrownianMotion {
  import opened CumulativeSum

  /** `_sample_fractional_brownian_motion(n, zero)`: the running sum of the
      `n` increments, with a single 0 inserted in front when `zero` holds.
      Entry k of the path is the sum of the increments before time index k. */
  function SampleFractionalBrownianMotion(n: nat, fgn: seq<real>, zero: bool := true): (fbm: seq<real>)
    requires |fgn| == n
    ensures |fbm| == if zero then n + 1 else n
    ensures zero ==> fbm[0] == 0.0
    ensures zero ==> forall k :: 1 <= k <= n ==> fbm[k] == Sum(fgn[..k])
    ensures !zero ==> forall i :: 0 <= i < n ==> fbm[i] == Sum(fgn[..i + 1])
  {
    var cumulative := CumSum(fgn);
    if zero then [0.0] + cumulative else cumulative
  }

  /** `sample(n, zero)` hands its arguments to the path integrator unchanged,
      with the same default `zero = true`. */
  function Sample(n: nat, fgn: seq<real>, zero: bool := true): (path: seq<real>)
    requires |fgn| == n
    ensures path == SampleFractionalBrownianMotion(n, fgn, zero)
  {
    SampleFractionalBrownianMotion(n, fgn, zero)
  }

  /** The first element is 0 when the path is anchored, otherwise the first increment. */
  lemma FirstElement(n: nat, fgn: seq<real>, zero: bool)
    requires |fgn| == n && n >= 1
    ensures SampleFractionalBrownianMotion(n, fgn, zero)[0] == if zero then 0.0 else fgn[0]
  {
  }

  /** Every later element is the previous one plus the increment that separates them:
      increment i - 1 on an anchored path, increment i otherwise. */
  lemma {:induction false} Step(n: nat, fgn: seq<real>, zero: bool, i: nat)
    requires |fgn| == n
    requires 1 <= i < |SampleFractionalBrownianMotion(n, fgn, zero)|
    ensures var fbm := SampleFractionalBrownianMotion(n, fgn, zero);
            fbm[i] == fbm[i - 1] + fgn[if zero then i - 1 else i]
  {
    var fbm := SampleFractionalBrownianMotion(n, fgn, zero);
    if zero {
      SumSnoc(fgn, i - 1);
      if i == 1 {
        assert fgn[..0] == [];
      } else {
        assert fbm[i - 1] == Sum(fgn[..i - 1]);
      }
      assert fbm[i] == Sum(fgn[..i]);
    } else {
      SumSnoc(fgn, i);
      assert fbm[i - 1] == Sum(fgn[..i]);
      assert fbm[i] == Sum(fgn[..i + 1]);
    }
  }

  /** Whatever `zero` is, a non-empty path ends at the sum of all increments. */
  lemma {:induction false} LastElement(n: nat, fgn: seq<real>, zero: bool)
    requires |fgn| == n
    requires |SampleFractionalBrownianMotion(n, fgn, zero)| > 0
    ensures var fbm := SampleFractionalBrownianMotion(n, fgn, zero);
            fbm[|fbm| - 1] == Sum(fgn)
  {
    if n == 0 {
      assert fgn == [];
    } else {
      assert fgn[..n] == fgn;
    }
  }

  /** The `zero` flag only adds a prefix: the anchored path without its first
      element is the unanchored path for the same increments. */
  lemma ZeroOnlyPrefixes(n: nat, fgn: seq<real>)
    requires |fgn| == n
    ensures SampleFractionalBrownianMotion(n, fgn, true)
         == [0.0] + SampleFractionalBrownianMotion(n, fgn, false)
  {
  }

  /** The anchored path loses nothing: its differences are exactly the increments. */
  lemma {:induction false} IncrementsRecovered(n: nat, fgn: seq<real>)
    requires |fgn| == n
    ensures Differences(SampleFractionalBrownianMotion(n, fgn, true)) == fgn
  {
    var fbm := SampleFractionalBrownianMotion(n, fgn, true);
    forall i | 0 <= i < n ensures Differences(fbm)[i] == fgn[i] {
      Step(n, fgn, true, i + 1);
    }
  }

  /** Without the anchor the path keeps the increments too: its first element is the
      first increment and its differences are the rest. */
  lemma {:induction false} IncrementsRecoveredUnanchored(n: nat, fgn: seq<real>)
    requires |fgn| == n && n >= 1
    ensures var fbm := SampleFractionalBrownianMotion(n, fgn, false);
            [fbm[0]] + Differences(fbm) == fgn
  {
    var fbm := SampleFractionalBrownianMotion(n, fgn, false);
    FirstElement(n, fgn, false);
    forall i | 1 <= i < n ensures Differences(fbm)[i - 1] == fgn[i] {
      Step(n, fgn, false, i);
    }
  }

  /** Conversely, every sequence that starts at 0 is the anchored path of its own
      differences: anchored paths and increment sequences correspond one to one. */
  lemma {:induction false} AnchoredPathFromDifferences(path: seq<real>)
    requires |path| >= 1 && path[0] == 0.0
    ensures |Differences(path)| == |path| - 1
    ensures SampleFractionalBrownianMotion(|path| - 1, Differences(path), true) == path
  {
    var d := Differences(path);
    var fbm := SampleFractionalBrownianMotion(|path| - 1, d, true);
    forall k | 1 <= k < |path| ensures fbm[k] == path[k] {
      SumOfDifferences(path, k);
    }
  }
}
