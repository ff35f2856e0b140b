/**
 * Significance labelling (hypothesis_testing.py): a p-value becomes "ns", "*", "**" or "***";
 * a null-hypothesis distribution of 30 binomial proportions is drawn from given random
 * numbers; and a measured distribution is labelled by the mean of 15 two-sample
 * Kolmogorov-Smirnov p-values, the test itself being the parameter `ks`.
 */
module HypothesisTesting {
  import opened Vectors

  // ------------------------------------------------------------------
  // Labels
  // ------------------------------------------------------------------

  /** verbose_significance: the threshold ladder 0.1, 0.05, 0.01. */
  function VerboseSignificance(p: real): (verdict: string)
    ensures verdict == "ns" <==> p > 0.1
    ensures verdict == "*" <==> 0.05 < p <= 0.1
    ensures verdict == "**" <==> 0.01 < p <= 0.05
    ensures verdict == "***" <==> p <= 0.01
  {
    if p > 0.1 then "ns"
    else if p > 0.05 then "*"
    else if p > 0.01 then "**"
    else "***"
  }

  /** The number of stars of a label, 0 for "ns". */
  function Stars(verdict: string): nat {
    if verdict == "ns" then 0 else |verdict|
  }

  /** A smaller p-value never gets fewer stars. */
  lemma SignificanceMonotone(p1: real, p2: real)
    requires p1 <= p2
    ensures Stars(VerboseSignificance(p1)) >= Stars(VerboseSignificance(p2))
  {
  }

  // ------------------------------------------------------------------
  // The random null distribution
  // ------------------------------------------------------------------

  /** The number of rounds of generate_random_distribution. */
  const Rounds: nat := 30

  /** The number of draws below the probability: the fish that "went top" in one round. */
  function CountBelow(probability: real, draws: seq<real>): (n: nat)
    ensures n <= |draws|
  {
    if draws == [] then 0
    else CountBelow(probability, draws[..|draws| - 1]) + (if probability > draws[|draws| - 1] then 1 else 0)
  }

  /** A probability strictly above every draw counts them all. */
  lemma {:induction false} CountBelowAll(probability: real, draws: seq<real>)
    requires forall i :: 0 <= i < |draws| ==> draws[i] < probability
    ensures CountBelow(probability, draws) == |draws|
  {
    if draws != [] {
      CountBelowAll(probability, draws[..|draws| - 1]);
    }
  }

  /** A probability at or below every draw counts none. */
  lemma {:induction false} CountBelowNone(probability: real, draws: seq<real>)
    requires forall i :: 0 <= i < |draws| ==> probability <= draws[i]
    ensures CountBelow(probability, draws) == 0
  {
    if draws != [] {
      CountBelowNone(probability, draws[..|draws| - 1]);
    }
  }

  /** The probability top / (top + bottom) of going top. */
  function Probability(top: nat, bottom: nat): real
    requires top + bottom > 0
  {
    top as real / (top + bottom) as real
  }

  /** What generate_random_distribution returns when it does not fail: round i counts the
      draws[i] below the probability and divides by the number of fish. */
  function RandomDistribution(top: nat, bottom: nat, fishes: nat, draws: seq<seq<real>>): seq<real>
    requires top + bottom > 0 && fishes > 0 && |draws| == Rounds
  {
    seq(Rounds, i requires 0 <= i < Rounds => CountBelow(Probability(top, bottom), draws[i]) as real / fishes as real)
  }

  /** Thirty proportions, each k / fishes for a count k in [0, fishes], hence in [0, 1]. */
  lemma RandomDistributionBounds(top: nat, bottom: nat, fishes: nat, draws: seq<seq<real>>)
    requires top + bottom > 0 && fishes > 0 && |draws| == Rounds
    requires forall i :: 0 <= i < Rounds ==> |draws[i]| == fishes
    ensures var d := RandomDistribution(top, bottom, fishes, draws);
            && |d| == Rounds
            && forall i :: 0 <= i < Rounds ==>
                 var k := CountBelow(Probability(top, bottom), draws[i]);
                 k <= fishes && d[i] == k as real / fishes as real && 0.0 <= d[i] <= 1.0
  {
    forall i | 0 <= i < Rounds {
      ProportionBounds(CountBelow(Probability(top, bottom), draws[i]), fishes);
    }
  }

  /** With no weight on the bottom and draws in [0, 1), every fish goes top in every round. */
  lemma RandomDistributionAllTop(top: nat, fishes: nat, draws: seq<seq<real>>)
    requires top > 0 && fishes > 0 && |draws| == Rounds
    requires forall i :: 0 <= i < Rounds ==> |draws[i]| == fishes
    requires forall i, j :: 0 <= i < Rounds && 0 <= j < |draws[i]| ==> 0.0 <= draws[i][j] < 1.0
    ensures forall i :: 0 <= i < Rounds ==> RandomDistribution(top, 0, fishes, draws)[i] == 1.0
  {
    assert Probability(top, 0) == 1.0;
    forall i | 0 <= i < Rounds {
      CountBelowAll(1.0, draws[i]);
    }
  }

  /** With no weight on the top and draws in [0, 1), no fish goes top in any round. */
  lemma RandomDistributionNoneTop(bottom: nat, fishes: nat, draws: seq<seq<real>>)
    requires bottom > 0 && fishes > 0 && |draws| == Rounds
    requires forall i, j :: 0 <= i < Rounds && 0 <= j < |draws[i]| ==> 0.0 <= draws[i][j] < 1.0
    ensures forall i :: 0 <= i < Rounds ==> RandomDistribution(0, bottom, fishes, draws)[i] == 0.0
  {
    assert Probability(0, bottom) == 0.0;
    forall i | 0 <= i < Rounds {
      CountBelowNone(0.0, draws[i]);
    }
  }

  /**
   * generate_random_distribution: draws[i][j] is the np.random.random() of fish j in round i.
   * It fails (ok false) where the source divides by zero: top + bottom == 0 or fishes == 0.
   */
  method GenerateRandomDistribution(top: nat, bottom: nat, fishes: nat, draws: seq<seq<real>>)
    returns (ok: bool, distribution: seq<real>)
    requires |draws| == Rounds && forall i :: 0 <= i < Rounds ==> |draws[i]| == fishes
    ensures ok <==> top + bottom > 0 && fishes > 0
    ensures ok ==> distribution == RandomDistribution(top, bottom, fishes, draws)
  {
    if top + bottom == 0 {
      return false, [];
    }
    var probability := Probability(top, bottom);
    distribution := [];
    for i := 0 to Rounds
      invariant |distribution| == i
      invariant fishes > 0 || i == 0
      invariant forall j :: 0 <= j < i ==>
                  distribution[j] == CountBelow(probability, draws[j]) as real / fishes as real
    {
      var wentTop := 0;
      for k := 0 to fishes
        invariant wentTop == CountBelow(probability, draws[i][..k])
      {
        assert draws[i][..k + 1][..k] == draws[i][..k];
        if probability > draws[i][k] {
          wentTop := wentTop + 1;
        }
      }
      assert draws[i][..fishes] == draws[i];
      if fishes == 0 {
        return false, [];
      }
      distribution := distribution + [wentTop as real / fishes as real];
    }
    ok := true;
  }

  // ------------------------------------------------------------------
  // Labelling a measured distribution
  // ------------------------------------------------------------------

  /** The number of null distributions distribution_significance compares against. */
  const Comparisons: nat := 15

  function Sum(xs: seq<real>): real {
    if xs == [] then 0.0 else Sum(xs[..|xs| - 1]) + xs[|xs| - 1]
  }

  /** np.mean. */
  function Mean(xs: seq<real>): real
    requires |xs| > 0
  {
    Sum(xs) / |xs| as real
  }

  lemma {:induction false} SumBounds(xs: seq<real>, lo: real, hi: real)
    requires forall i :: 0 <= i < |xs| ==> lo <= xs[i] <= hi
    ensures |xs| as real * lo <= Sum(xs) <= |xs| as real * hi
  {
    if xs != [] {
      SumBounds(xs[..|xs| - 1], lo, hi);
    }
  }

  /** The mean lies within any bounds that hold of every element. */
  lemma MeanBounds(xs: seq<real>, lo: real, hi: real)
    requires |xs| > 0 && forall i :: 0 <= i < |xs| ==> lo <= xs[i] <= hi
    ensures lo <= Mean(xs) <= hi
  {
    SumBounds(xs, lo, hi);
    var n := |xs| as real;
    var m := Mean(xs);
    assert m * n == Sum(xs);
  }

  /** The 15 p-values of distribution_significance, each against a fresh fair null distribution. */
  function PValues(dist: seq<real>, fishes: nat, draws: seq<seq<seq<real>>>,
                   ks: (seq<real>, seq<real>) -> real): (ps: seq<real>)
    requires fishes > 0 && |draws| == Comparisons
    requires forall i :: 0 <= i < Comparisons ==> |draws[i]| == Rounds
    ensures |ps| == Comparisons
  {
    seq(Comparisons, i requires 0 <= i < Comparisons => ks(dist, RandomDistribution(1, 1, fishes, draws[i])))
  }

  lemma {:induction false} SumAbove(xs: seq<real>, lo: real)
    requires |xs| > 0 && forall i :: 0 <= i < |xs| ==> lo < xs[i]
    ensures |xs| as real * lo < Sum(xs)
  {
    if |xs| > 1 {
      SumAbove(xs[..|xs| - 1], lo);
    }
  }

  /** When every p-value is above 0.1 the label is "ns"; when every one is at most 0.01 it is "***". */
  lemma UniformPValuesLabel(ps: seq<real>)
    requires |ps| > 0
    ensures (forall i :: 0 <= i < |ps| ==> 0.1 < ps[i]) ==> VerboseSignificance(Mean(ps)) == "ns"
    ensures (forall i :: 0 <= i < |ps| ==> 0.0 <= ps[i] <= 0.01) ==> VerboseSignificance(Mean(ps)) == "***"
  {
    var n := |ps| as real;
    var m := Mean(ps);
    assert m * n == Sum(ps);
    if forall i :: 0 <= i < |ps| ==> 0.1 < ps[i] {
      SumAbove(ps, 0.1);
      if m <= 0.1 {
        assert Mul(m, n) <= Mul(0.1, n);
      }
    }
    if forall i :: 0 <= i < |ps| ==> 0.0 <= ps[i] <= 0.01 {
      MeanBounds(ps, 0.0, 0.01);
    }
  }

  /**
   * distribution_significance: label dist by the mean of 15 KS p-values, each against a
   * generate_random_distribution(1, 1, fishes) drawn from draws[i]. It fails (ok false) for
   * fishes == 0, where generating the null distribution divides by zero.
   */
  method DistributionSignificance(dist: seq<real>, fishes: nat, draws: seq<seq<seq<real>>>,
                                  ks: (seq<real>, seq<real>) -> real)
    returns (ok: bool, significance: string)
    requires |draws| == Comparisons
    requires forall i :: 0 <= i < Comparisons ==> |draws[i]| == Rounds
    requires forall i, j :: 0 <= i < Comparisons && 0 <= j < Rounds ==> |draws[i][j]| == fishes
    ensures ok <==> fishes > 0
    ensures ok ==> significance == VerboseSignificance(Mean(PValues(dist, fishes, draws, ks)))
  {
    var ps: seq<real> := [];
    for i := 0 to Comparisons
      invariant |ps| == i
      invariant fishes > 0 || i == 0
      invariant forall j :: 0 <= j < i ==> ps[j] == ks(dist, RandomDistribution(1, 1, fishes, draws[j]))
    {
      var generated, swimRandomDist := GenerateRandomDistribution(1, 1, fishes, draws[i]);
      if !generated {
        return false, "";
      }
      var p := ks(dist, swimRandomDist);
      ps := ps + [p];
    }
    assert ps == PValues(dist, fishes, draws, ks);
    var pMean := Mean(ps);
    return true, VerboseSignificance(pMean);
  }
}
