/** The per-information-set accumulator of kuhn.py (class Node). */
module InfosetNode {
  import opened StrategyVectors
  import opened KuhnGame

  /** The value of a node at one moment: its three arrays and two counters. */
  datatype NodeState = NodeState(
    regretSum: seq<real>,
    strategy: seq<real>,
    strategySum: seq<real>,
    visitedCount: nat,
    utilSum: real)

  function Zeros(n: nat): seq<real>
  {
    seq(n, _ => 0.0)
  }

  /** The state of a freshly created node with n actions. */
  function InitialState(n: nat): NodeState
  {
    NodeState(Zeros(n), Zeros(n), Zeros(n), 0, 0.0)
  }

  class Node {
    const infoset: InfosetKey
    const numActions: nat
    const regretSum: array<real>
    /** The cached current strategy, overwritten by every GetStrategy call. */
    const strategy: array<real>
    const strategySum: array<real>
    var visitedCount: nat
    var utilSum: real

    ghost function Footprint(): set<object>
    {
      {this, regretSum, strategy, strategySum}
    }

    ghost predicate Valid()
    {
      && regretSum.Length == numActions
      && strategy.Length == numActions
      && strategySum.Length == numActions
      && regretSum != strategy && regretSum != strategySum && strategy != strategySum
    }

    ghost function State(): NodeState
      reads Footprint()
    {
      NodeState(regretSum[..], strategy[..], strategySum[..], visitedCount, utilSum)
    }

    /** Node(infoset, num_actions): all arrays zero, both counters zero. */
    constructor (infoset: InfosetKey, numActions: nat)
      ensures Valid() && fresh(Footprint())
      ensures this.infoset == infoset && this.numActions == numActions
      ensures State() == InitialState(numActions)
    {
      this.infoset := infoset;
      this.numActions := numActions;
      regretSum := new real[numActions](_ => 0.0);
      strategy := new real[numActions](_ => 0.0);
      strategySum := new real[numActions](_ => 0.0);
      visitedCount := 0;
      utilSum := 0.0;
    }

    /** get_strategy: overwrites the cached strategy with the regret-matching
        strategy and returns that same array (not a copy). */
    method GetStrategy() returns (s: array<real>)
      requires Valid()
      modifies strategy
      ensures s == strategy
      ensures strategy[..] == RegretMatching(regretSum[..])
      ensures unchanged(this, regretSum, strategySum)
      ensures State() == old(State()).(strategy := RegretMatching(old(State()).regretSum))
    {
      var normalizingSum := 0.0;
      for a := 0 to numActions
        invariant forall i :: 0 <= i < a ==> strategy[i] == PositivePart(regretSum[i])
        invariant normalizingSum == Sum(strategy[..a])
      {
        if regretSum[a] > 0.0 {
          strategy[a] := regretSum[a];
        } else {
          strategy[a] := 0.0;
        }
        assert strategy[..a + 1][..a] == strategy[..a];
        normalizingSum := normalizingSum + strategy[a];
      }
      ghost var pos := strategy[..];
      assert pos == PositiveParts(regretSum[..]);
      assert strategy[..numActions] == pos;
      for a := 0 to numActions
        invariant forall i :: 0 <= i < a ==> strategy[i] == Normalize(pos)[i]
        invariant forall i :: a <= i < numActions ==> strategy[i] == pos[i]
      {
        if normalizingSum > 0.0 {
          strategy[a] := strategy[a] / normalizingSum;
        } else {
          strategy[a] := 1.0 / numActions as real;
        }
      }
      s := strategy;
    }

    /** get_average_strategy: a new array holding the normalised strategy
        sums; the node itself is not modified. */
    method GetAverageStrategy() returns (avg: array<real>)
      requires Valid()
      ensures fresh(avg)
      ensures avg[..] == AverageStrategy(strategySum[..])
    {
      avg := new real[numActions](_ => 0.0);
      var normalizingSum := 0.0;
      for a := 0 to numActions
        invariant normalizingSum == Sum(strategySum[..a])
      {
        assert strategySum[..a + 1][..a] == strategySum[..a];
        normalizingSum := normalizingSum + strategySum[a];
      }
      assert strategySum[..numActions] == strategySum[..];
      for a := 0 to numActions
        invariant forall i :: 0 <= i < a ==> avg[i] == AverageStrategy(strategySum[..])[i]
      {
        if normalizingSum > 0.0 {
          avg[a] := strategySum[a] / normalizingSum;
        } else {
          avg[a] := 1.0 / numActions as real;
        }
      }
    }
  
    /** The regret loop of external_cfr at the traversing player's node:
        each regret sum grows by its action's value minus the node's value. */
    method AccumulateRegrets(utils: seq<real>, nodeUtil: real)
      requires Valid() && |utils| == numActions
      modifies regretSum
      ensures State() == old(State()).(regretSum := AddRegrets(old(State()).regretSum, utils, nodeUtil))
    {
      for a := 0 to numActions
        invariant forall i :: 0 <= i < a ==> regretSum[i] == old(regretSum[i]) + (utils[i] - nodeUtil)
        invariant forall i :: a <= i < numActions ==> regretSum[i] == old(regretSum[i])
      {
        var regret := utils[a] - nodeUtil;
        regretSum[a] := regretSum[a] + regret;
      }
    }

    /** The strategy-sum loop of external_cfr at the other player's node:
        the cached strategy is added into the strategy sums. */
    method AccumulateStrategy()
      requires Valid()
      modifies strategySum
      ensures State() == old(State()).(strategySum := Add(old(State()).strategySum, old(State()).strategy))
    {
      for a := 0 to numActions
        invariant forall i :: 0 <= i < a ==> strategySum[i] == old(strategySum[i]) + strategy[i]
        invariant forall i :: a <= i < numActions ==> strategySum[i] == old(strategySum[i])
      {
        strategySum[a] := strategySum[a] + strategy[a];
      }
    }
  }
}
