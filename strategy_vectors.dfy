/** Regret matching over real-valued vectors: the value-level specification of
    the two normalisation loops of an information-set node. */
module StrategyVectors {

  /** Sum of a vector, accumulated left to right as the node's loops do. */
  function Sum(s: seq<real>): real
    decreases |s|
  {
    if |s| == 0 then 0.0 else Sum(s[..|s| - 1]) + s[|s| - 1]
  }

  function PositivePart(x: real): real
  {
    if x > 0.0 then x else 0.0
  }

  /** The entry-wise positive part max(x, 0) of a vector. */
  function PositiveParts(s: seq<real>): seq<real>
  {
    seq(|s|, i requires 0 <= i < |s| => PositivePart(s[i]))
  }

  /** The uniform vector 1/n, ..., 1/n. */
  function Uniform(n: nat): seq<real>
  {
    seq(n, i requires 0 <= i < n => 1.0 / n as real)
  }

  /** Every entry divided by c. */
  function Scale(w: seq<real>, c: real): seq<real>
    requires c != 0.0
  {
    seq(|w|, i requires 0 <= i < |w| => w[i] / c)
  }

  predicate NonNegative(w: seq<real>)
  {
    forall i :: 0 <= i < |w| ==> w[i] >= 0.0
  }

  /** A probability vector: non-negative entries summing to 1. */
  predicate IsDistribution(p: seq<real>)
  {
    NonNegative(p) && Sum(p) == 1.0
  }

  /** Divide by the total when it is positive, otherwise fall back to uniform. */
  function Normalize(w: seq<real>): (r: seq<real>)
    ensures |r| == |w|
  {
    var total := Sum(w);
    if total > 0.0 then Scale(w, total) else Uniform(|w|)
  }

  /** The current strategy of a node: positive regrets, normalised. */
  function RegretMatching(regret: seq<real>): (r: seq<real>)
    ensures |r| == |regret|
  {
    Normalize(PositiveParts(regret))
  }

  /** The average strategy of a node: the strategy sums, normalised. */
  function AverageStrategy(strategySum: seq<real>): (r: seq<real>)
    ensures |r| == |strategySum|
  {
    Normalize(strategySum)
  }

  /** Entry-wise sum of two vectors of the same length. */
  function Add(u: seq<real>, v: seq<real>): (r: seq<real>)
    requires |u| == |v|
    ensures |r| == |u|
  {
    seq(|u|, i requires 0 <= i < |u| => u[i] + v[i])
  }

  /** The regret update of CFR: the regret of every action grows by that
      action's value minus the value of the node. */
  function AddRegrets(regret: seq<real>, utils: seq<real>, nodeUtil: real): (r: seq<real>)
    requires |regret| == |utils|
    ensures |r| == |regret|
  {
    seq(|regret|, a requires 0 <= a < |regret| => regret[a] + (utils[a] - nodeUtil))
  }

  /** The value of the first |u| actions under the strategy p: each action's
      utility weighted by its probability, accumulated left to right. */
  function Dot(p: seq<real>, u: seq<real>): real
    requires |u| <= |p|
    decreases |u|
  {
    if |u| == 0 then 0.0 else Dot(p, u[..|u| - 1]) + p[|u| - 1] * u[|u| - 1]
  }

  /** One more action adds its weighted utility. */
  lemma DotPrefix(p: seq<real>, u: seq<real>, k: nat)
    requires k < |u| <= |p|
    ensures Dot(p, u[..k + 1]) == Dot(p, u[..k]) + p[k] * u[k]
  {
    assert u[..k + 1][..k] == u[..k];
  }

  /** The value of a two-action node. */
  lemma Dot2(p: seq<real>, u0: real, u1: real)
    requires |p| == 2
    ensures Dot(p, [u0, u1]) == p[0] * u0 + p[1] * u1
  {
    var u := [u0, u1];
    DotPrefix(p, u, 1);
    DotPrefix(p, u, 0);
    assert u[..2] == u && u[..0] == [];
  }

  /** Sum of a two-entry vector. */
  lemma Sum2(p: seq<real>)
    requires |p| == 2
    ensures Sum(p) == p[0] + p[1]
  {
    assert p[..|p| - 1] == p[..1];
    assert p[..1][..0] == [];
    assert Sum(p[..1]) == p[0];
  }

  /** The entry-wise sum of two vectors sums to the sum of their sums. */
  lemma {:induction false} SumAdd(v: seq<real>, w: seq<real>)
    requires |v| == |w|
    ensures Sum(Add(v, w)) == Sum(v) + Sum(w)
    decreases |v|
  {
    if |v| > 0 {
      var n := |v| - 1;
      assert Add(v, w)[..n] == Add(v[..n], w[..n]);
      SumAdd(v[..n], w[..n]);
    }
  }

  lemma {:induction false} SumScaled(w: seq<real>, c: real)
    requires c != 0.0
    ensures Sum(Scale(w, c)) == Sum(w) / c
    decreases |w|
  {
    if |w| > 0 {
      var n := |w| - 1;
      var v := Scale(w, c);
      assert v[..n] == Scale(w[..n], c);
      SumScaled(w[..n], c);
      assert Sum(v) == Sum(w[..n]) / c + w[n] / c;
      assert Sum(w[..n]) / c + w[n] / c == (Sum(w[..n]) + w[n]) / c;
    }
  }

  lemma {:induction false} SumUniform(n: nat)
    ensures n > 0 ==> Sum(Uniform(n)) == 1.0
  {
    if n > 0 {
      var k := n - 1;
      assert Uniform(n)[..k] == seq(k, _ => 1.0 / n as real);
      SumConstant(k, 1.0 / n as real);
    }
  }

  lemma {:induction false} SumConstant(n: nat, c: real)
    ensures Sum(seq(n, _ => c)) == n as real * c
  {
    if n > 0 {
      assert seq(n, _ => c)[..n - 1] == seq(n - 1, _ => c);
      SumConstant(n - 1, c);
    }
  }

  /** A sum of non-negative entries is positive exactly when some entry is. */
  lemma {:induction false} SumPositiveIff(w: seq<real>)
    requires NonNegative(w)
    ensures Sum(w) >= 0.0
    ensures Sum(w) > 0.0 <==> exists i :: 0 <= i < |w| && w[i] > 0.0
    decreases |w|
  {
    if |w| > 0 {
      var n := |w| - 1;
      SumPositiveIff(w[..n]);
      if Sum(w[..n]) > 0.0 {
        var i :| 0 <= i < n && w[..n][i] > 0.0;
        assert w[i] > 0.0;
      }
    }
  }

  /** Normalising a non-negative, non-empty vector yields a probability vector. */
  lemma NormalizeIsDistribution(w: seq<real>)
    requires |w| > 0 && NonNegative(w)
    ensures IsDistribution(Normalize(w))
  {
    SumPositiveIff(w);
    var total := Sum(w);
    if total > 0.0 {
      var r := Scale(w, total);
      assert Normalize(w) == r;
      SumScaled(w, total);
      assert Sum(r) == 1.0 by {
        assert total / total == 1.0;
      }
      forall i | 0 <= i < |r|
        ensures r[i] >= 0.0
      {
        assert r[i] == w[i] / total;
      }
    } else {
      SumUniform(|w|);
    }
  }

  /** get_strategy yields a probability vector for every regret vector,
      including all-zero and all-negative ones. */
  lemma RegretMatchingIsDistribution(regret: seq<real>)
    requires |regret| > 0
    ensures IsDistribution(RegretMatching(regret))
  {
    NormalizeIsDistribution(PositiveParts(regret));
  }

  /** The two cases of regret matching: uniform exactly when no regret is
      positive, otherwise each positive part over the total of positive parts. */
  lemma RegretMatchingCases(regret: seq<real>)
    ensures var r := RegretMatching(regret);
            |r| == |regret| &&
            ((forall a :: 0 <= a < |regret| ==> regret[a] <= 0.0) ==>
               forall a :: 0 <= a < |r| ==> r[a] == 1.0 / |regret| as real)
    ensures var total := Sum(PositiveParts(regret));
            (exists a :: 0 <= a < |regret| && regret[a] > 0.0) ==>
              total > 0.0 &&
              forall a :: 0 <= a < |regret| ==>
                RegretMatching(regret)[a] == PositivePart(regret[a]) / total
  {
    var pos := PositiveParts(regret);
    SumPositiveIff(pos);
    if exists a :: 0 <= a < |regret| && regret[a] > 0.0 {
      var a :| 0 <= a < |regret| && regret[a] > 0.0;
      assert pos[a] > 0.0;
    }
  }

  /** The average strategy is uniform when the strategy sums total zero and
      proportional to them otherwise; it is a probability vector whenever the
      sums are non-negative. */
  lemma AverageStrategyIsDistribution(strategySum: seq<real>)
    requires |strategySum| > 0 && NonNegative(strategySum)
    ensures IsDistribution(AverageStrategy(strategySum))
    ensures Sum(strategySum) == 0.0 ==> AverageStrategy(strategySum) == Uniform(|strategySum|)
    ensures Sum(strategySum) != 0.0 ==>
              forall a :: 0 <= a < |strategySum| ==>
                AverageStrategy(strategySum)[a] == strategySum[a] / Sum(strategySum)
  {
    NormalizeIsDistribution(strategySum);
    SumPositiveIff(strategySum);
  }
}
