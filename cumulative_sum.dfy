/** Sequence semantics of the array operations the path integrator relies on:
    numpy's `cumsum` (a running sum accumulated from the left) and the
    first-order difference that undoes it. Numbers are exact reals. */
module CumulativeSum {

  /** Sum of a sequence, adding from the left: ((xs[0] + xs[1]) + ...) + xs[|xs| - 1].
      The empty sum is 0. This is the reference every running-sum entry is compared to. */
  function Sum(xs: seq<real>): real
  {
    if xs == [] then 0.0 else Sum(xs[..|xs| - 1]) + xs[|xs| - 1]
  }

  /** A leading element can be taken out of the sum. */
  lemma {:induction false} SumCons(x: real, xs: seq<real>)
    ensures Sum([x] + xs) == x + Sum(xs)
  {
    if xs != [] {
      var ys := [x] + xs;
      assert ys[..|ys| - 1] == [x] + xs[..|xs| - 1];
      SumCons(x, xs[..|xs| - 1]);
    }
  }

  /** The running sum of `xs` started from `acc`, as numpy's `cumsum` computes it:
      each output adds the next input to the previous output. */
  function CumSumFrom(acc: real, xs: seq<real>): (r: seq<real>)
    ensures |r| == |xs|
    decreases |xs|
  {
    if xs == [] then [] else [acc + xs[0]] + CumSumFrom(acc + xs[0], xs[1..])
  }

  /** Entry i of the accumulated running sum is the start value plus the sum of
      the first i + 1 inputs. */
  lemma {:induction false} CumSumFromAt(acc: real, xs: seq<real>, i: nat)
    requires i < |xs|
    ensures CumSumFrom(acc, xs)[i] == acc + Sum(xs[..i + 1])
    decreases i
  {
    if i == 0 {
      assert xs[..1][..0] == [];
    } else {
      CumSumFromAt(acc + xs[0], xs[1..], i - 1);
      SumCons(xs[0], xs[1..][..i]);
      assert [xs[0]] + xs[1..][..i] == xs[..i + 1];
    }
  }

  /** `cumsum` of the increments: one entry per increment, entry i being the sum of
      increments 0..i. */
  function CumSum(xs: seq<real>): (r: seq<real>)
    ensures |r| == |xs|
    ensures forall i :: 0 <= i < |xs| ==> r[i] == Sum(xs[..i + 1])
  {
    forall i | 0 <= i < |xs| ensures CumSumFrom(0.0, xs)[i] == Sum(xs[..i + 1]) {
      CumSumFromAt(0.0, xs, i);
    }
    CumSumFrom(0.0, xs)
  }

  /** Adding one more input extends the prefix sum by that input. */
  lemma SumSnoc(xs: seq<real>, i: nat)
    requires i < |xs|
    ensures Sum(xs[..i + 1]) == Sum(xs[..i]) + xs[i]
  {
    assert xs[..i + 1][..i] == xs[..i];
  }

  /** The first-order differences of a sequence: entry i is xs[i + 1] - xs[i]
      (numpy's `diff`). A sequence of at most one element has no differences. */
  function Differences(xs: seq<real>): (d: seq<real>)
  {
    if |xs| <= 1 then [] else seq(|xs| - 1, i requires 0 <= i < |xs| - 1 => xs[i + 1] - xs[i])
  }

  /** The differences telescope: the sum of the first k of them is the rise from
      xs[0] to xs[k]. */
  lemma {:induction false} SumOfDifferences(xs: seq<real>, k: nat)
    requires k < |xs|
    ensures Sum(Differences(xs)[..k]) == xs[k] - xs[0]
  {
    if k == 0 {
      assert Differences(xs)[..0] == [];
    } else {
      var d := Differences(xs);
      SumOfDifferences(xs, k - 1);
      SumSnoc(d, k - 1);
    }
  }
}
