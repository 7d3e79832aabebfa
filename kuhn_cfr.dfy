/** The trainer of kuhn.py (class KuhnCFR): a dictionary of Node objects,
    updated in place by the recursive external-sampling traversal. */
module KuhnTrainer {
  import opened StrategyVectors
  import opened KuhnGame
  import opened InfosetNode
  import opened Mccfr

  /** n, kept under k, is well formed with two actions, and it and its
      arrays belong to k in owner. */
  ghost predicate Owns(owner: map<object, InfosetKey>, k: InfosetKey, n: Node)
  {
    && n.Valid() && n.numActions == 2 && n.infoset == k
    && n in owner && owner[n] == k
    && n.regretSum in owner && owner[n.regretSum] == k
    && n.strategy in owner && owner[n.strategy] == k
    && n.strategySum in owner && owner[n.strategySum] == k
  }

  /** Every node is owned by its own key: no two keys share a node or an
      array. */
  ghost predicate Consistent(nodes: map<InfosetKey, Node>, owner: map<object, InfosetKey>)
  {
    forall k :: k in nodes ==> Owns(owner, k, nodes[k])
  }

  /** A new node with objects of its own can be added under a new key. */
  lemma ConsistentAdd(nodes: map<InfosetKey, Node>, owner: map<object, InfosetKey>, k: InfosetKey, n: Node)
    requires Consistent(nodes, owner) && k !in nodes
    requires n.Valid() && n.numActions == 2 && n.infoset == k
    requires n !in owner && n.regretSum !in owner && n.strategy !in owner && n.strategySum !in owner
    ensures Consistent(nodes[k := n], owner[n := k][n.regretSum := k][n.strategy := k][n.strategySum := k])
  {
  }

  class KuhnCfr {
    const iterations: nat
    const decksize: nat
    /** self.nodes: one Node per information set met so far. */
    var nodes: map<InfosetKey, Node>
    /** The key of the node that each object of the store belongs to: the
        node itself and its three arrays. */
    ghost var Owner: map<object, InfosetKey>

    /** Every object the nodes are made of. */
    ghost function Repr(): set<object>
      reads this
    {
      Owner.Keys
    }

    /** Every node sits under its own key and no two keys share a node or an
        array. */
    ghost predicate Valid()
      reads this
    {
      this !in Owner && Consistent(nodes, Owner)
    }

    /** The node store by value. */
    ghost function Store(): (s: Store)
      reads this, Repr()
      requires Valid()
      ensures WellFormed(s) && s.Keys == nodes.Keys
    {
      map k | k in nodes :: nodes[k].State()
    }

    /** KuhnCFR(iterations, decksize): no node yet. */
    constructor (iterations: nat, decksize: nat)
      ensures Valid() && fresh(Repr())
      ensures this.iterations == iterations && this.decksize == decksize
      ensures nodes == map[]
    {
      this.iterations := iterations;
      this.decksize := decksize;
      nodes := map[];
      Owner := map[];
    }

    /** After a step that changed at most the node under key (or added it),
        the store differs from the earlier one at most at key. */
    twostate lemma StoreChangedAt(key: InfosetKey)
      requires old(Valid()) && Valid() && key in nodes
      requires nodes == old(nodes)[key := nodes[key]]
      requires forall o :: o in old(Owner) && old(Owner)[o] != key ==> unchanged(o)
      ensures Store() == old(Store())[key := nodes[key].State()]
    {
      var before := old(Store());
      var after := Store();
      var expected := before[key := nodes[key].State()];
      forall k | k in nodes
        ensures k in expected && after[k] == expected[k]
      {
        if k != key {
          assert unchanged(nodes[k], nodes[k].regretSum, nodes[k].strategy, nodes[k].strategySum);
        }
      }
      assert after.Keys == expected.Keys;
    }

    /** The node under infoset, created with two actions and all-zero sums
        when the key is new. */
    method NodeAt(infoset: InfosetKey) returns (node: Node)
      requires Valid()
      modifies this
      ensures Valid()
      ensures forall o :: o in Repr() && o !in old(Repr()) ==> !old(allocated(o))
      ensures infoset in nodes && nodes[infoset] == node && nodes == old(nodes)[infoset := node]
      ensures forall k :: k in old(nodes) ==> k in nodes && nodes[k] == old(nodes[k])
      ensures forall o :: o in old(Owner) ==> o in Owner && Owner[o] == old(Owner)[o]
      ensures node.State() == NodeOrNew(old(Store()), infoset)
    {
      if infoset !in nodes {
        node := new Node(infoset, 2);
        ConsistentAdd(nodes, Owner, infoset, node);
        nodes := nodes[infoset := node];
        Owner := Owner[node := infoset][node.regretSum := infoset][node.strategy := infoset][node.strategySum := infoset];
      } else {
        node := nodes[infoset];
      }
    }

    /** external_cfr: returns the utility of the history for the traversing
        player and the number of random draws consumed so far; the store ends
        as the reference traversal says, and no existing node is replaced. */
    method ExternalCfr(cards: seq<int>, history: History, pot: int, traverser: nat,
                       draw: nat -> real, next: nat) returns (util: real, drawsUsed: nat)
      requires Valid() && |cards| >= 2
      modifies this, Repr()
      ensures Valid()
      ensures forall o :: o in Repr() && o !in old(Repr()) ==> !old(allocated(o))
      ensures forall k :: k in old(nodes) ==> k in nodes && nodes[k] == old(nodes[k])
      ensures var o := Traverse(old(Store()), cards, history, pot, traverser, draw, next);
              util == o.util && drawsUsed == o.next && Store() == o.store
      decreases Remaining(history), 2, 0
    {
      var plays := |history|;
      var actingPlayer := plays % 2;
      var opponentPlayer := 1 - actingPlayer;

      if plays >= 2 {
        if history[plays - 1] == 0 && history[plays - 2] == 1 {
          // bet, then fold
          return (if actingPlayer == traverser then 1.0 else -1.0), next;
        }
        if (history[plays - 1] == 0 && history[plays - 2] == 0) || (history[plays - 1] == 1 && history[plays - 2] == 1) {
          // check-check or bet-call: showdown
          if cards[actingPlayer] > cards[opponentPlayer] {
            return (if actingPlayer == traverser then pot as real / 2.0 else -(pot as real) / 2.0), next;
          } else {
            return (if actingPlayer == traverser then -(pot as real) / 2.0 else pot as real / 2.0), next;
          }
        }
      }
      assert !IsTerminal(history);
      util, drawsUsed := DecisionNode(cards, history, pot, traverser, draw, next);
    }

    /** kuhn.py lines 96-128, at a history that is not terminal: the
        node of the acting player's information set is fetched or created,
        its strategy computed, and the node handled by the acting player's
        rule. */
    method DecisionNode(cards: seq<int>, history: History, pot: int, traverser: nat,
                        draw: nat -> real, next: nat) returns (util: real, drawsUsed: nat)
      requires Valid() && |cards| >= 2 && !IsTerminal(history)
      modifies this, Repr()
      ensures Valid()
      ensures forall o :: o in Repr() && o !in old(Repr()) ==> !old(allocated(o))
      ensures forall k :: k in old(nodes) ==> k in nodes && nodes[k] == old(nodes[k])
      ensures var o := DecisionStep(old(Store()), cards, history, pot, traverser, draw, next);
              util == o.util && drawsUsed == o.next && Store() == o.store
      decreases Remaining(history), 1, 1
    {
      var actingPlayer := |history| % 2;
      var infoset := InfosetKey(cards[actingPlayer], history);
      var node, strategy := PrepareNode(infoset);
      if actingPlayer == traverser {
        util, drawsUsed := TraverserNode(node, strategy, cards, history, pot, traverser, draw, next);
      } else {
        util, drawsUsed := OpponentNode(node, strategy, cards, history, pot, traverser, draw, next);
      }
    }

    /** kuhn.py lines 96-98 and the get_strategy call of either
        branch: the node under infoset, created if absent, with its cached
        strategy refreshed from its regrets; the array returned is the
        node's own. */
    method PrepareNode(infoset: InfosetKey) returns (node: Node, strategy: array<real>)
      requires Valid()
      modifies this, Repr()
      ensures Valid()
      ensures forall o :: o in Repr() && o !in old(Repr()) ==> !old(allocated(o))
      ensures forall k :: k in old(nodes) ==> k in nodes && nodes[k] == old(nodes[k])
      ensures infoset in nodes && nodes[infoset] == node && strategy == node.strategy
      ensures strategy[..] == RegretMatching(NodeOrNew(old(Store()), infoset).regretSum)
      ensures Store() == Prepared(old(Store()), infoset)
    {
      label Start:
      node := NodeAt(infoset);
      strategy := node.GetStrategy();
      StoreChangedAt@Start(infoset);
    }

    /** kuhn.py lines 102-116, at a node of the traversing player:
        both children are valued, then the regrets, the utility sum and the
        visit count of the node are updated in place. */
    method TraverserNode(node: Node, strategy: array<real>, cards: seq<int>, history: History, pot: int,
                         traverser: nat, draw: nat -> real, next: nat) returns (util: real, drawsUsed: nat)
      requires Valid() && |cards| >= 2 && !IsTerminal(history)
      requires KeyAt(cards, history) in nodes && nodes[KeyAt(cards, history)] == node
      requires strategy == node.strategy
      modifies this, Repr()
      ensures Valid()
      ensures forall o :: o in Repr() && o !in old(Repr()) ==> !old(allocated(o))
      ensures forall k :: k in old(nodes) ==> k in nodes && nodes[k] == old(nodes[k])
      ensures var o := TraverserStep(old(Store()), old(strategy[..]), cards, history, pot, traverser, draw, next);
              util == o.util && drawsUsed == o.next && Store() == o.store
      decreases Remaining(history), 1, 0
    {
      var infoset := KeyAt(cards, history);
      var utils, nodeUtil;
      utils, nodeUtil, drawsUsed := ChildUtilities(node, strategy, cards, history, pot, traverser, draw, next);
      RecordVisit(infoset, node, utils, nodeUtil);
      util := nodeUtil;
    }

    /** kuhn.py lines 111-115: the regrets of the node grow by each
        action's utility minus the node's, its utility sum by the node's
        utility and its visit count by one; no other node changes. */
    method RecordVisit(infoset: InfosetKey, node: Node, utils: seq<real>, nodeUtil: real)
      requires Valid() && infoset in nodes && nodes[infoset] == node && |utils| == 2
      modifies node, node.regretSum
      ensures Valid() && nodes == old(nodes) && Owner == old(Owner)
      ensures Store() == old(Store())[infoset := Visited(old(Store())[infoset], utils, nodeUtil)]
    {
      label BeforeUpdate:
      node.AccumulateRegrets(utils, nodeUtil);
      node.utilSum := node.utilSum + nodeUtil;
      node.visitedCount := node.visitedCount + 1;
      StoreChangedAt@BeforeUpdate(infoset);
    }

    /** kuhn.py lines 103-109: the utilities of the children and
        the value of the node under the cached strategy array, which the
        children leave as get_strategy made it. */
    method ChildUtilities(node: Node, strategy: array<real>, cards: seq<int>, history: History, pot: int,
                          traverser: nat, draw: nat -> real, next: nat)
      returns (utils: seq<real>, nodeUtil: real, drawsUsed: nat)
      requires Valid() && |cards| >= 2 && !IsTerminal(history)
      requires KeyAt(cards, history) in nodes && nodes[KeyAt(cards, history)] == node
      requires strategy == node.strategy
      modifies this, Repr()
      ensures Valid()
      ensures forall o :: o in Repr() && o !in old(Repr()) ==> !old(allocated(o))
      ensures forall k :: k in old(nodes) ==> k in nodes && nodes[k] == old(nodes[k])
      ensures var e := Expand(old(Store()), cards, history, pot, traverser, draw, next, 2);
              utils == e.utils && drawsUsed == e.next && Store() == e.store
      ensures nodeUtil == Dot(old(strategy[..]), utils)
      decreases Remaining(history), 0, 2
    {
      utils, drawsUsed := CollectChildren(node, strategy, cards, history, pot, traverser, draw, next);
      nodeUtil := NodeValue(strategy, utils);
    }

    /** kuhn.py lines 106-108: each action's child is traversed in
        turn, on the nodes and draws the one before left; the node's own
        cached strategy array is left as get_strategy made it. */
    method CollectChildren(node: Node, strategy: array<real>, cards: seq<int>, history: History, pot: int,
                          traverser: nat, draw: nat -> real, next: nat)
      returns (utils: seq<real>, drawsUsed: nat)
      requires Valid() && |cards| >= 2 && !IsTerminal(history)
      requires KeyAt(cards, history) in nodes && nodes[KeyAt(cards, history)] == node
      requires strategy == node.strategy
      modifies this, Repr()
      ensures Valid()
      ensures forall o :: o in Repr() && o !in old(Repr()) ==> !old(allocated(o))
      ensures forall k :: k in old(nodes) ==> k in nodes && nodes[k] == old(nodes[k])
      ensures var e := Expand(old(Store()), cards, history, pot, traverser, draw, next, 2);
              utils == e.utils && drawsUsed == e.next && Store() == e.store
      ensures strategy[..] == old(strategy[..])
      decreases Remaining(history), 0, 1
    {
      ghost var s1 := Store();
      utils := [];
      drawsUsed := next;
      for a := 0 to 2
        invariant Valid()
        invariant forall o :: o in Repr() && o !in old(Repr()) ==> !old(allocated(o))
        invariant forall k :: k in old(nodes) ==> k in nodes && nodes[k] == old(nodes[k])
        invariant var e := Expand(s1, cards, history, pot, traverser, draw, next, a);
                  Store() == e.store && drawsUsed == e.next && utils == e.utils
        invariant strategy[..] == old(strategy[..])
      {
        var childUtil;
        childUtil, drawsUsed := ChildValue(node, strategy, cards, history, pot, traverser, draw, next, s1, a, drawsUsed);
        utils := utils + [childUtil];
      }
    }

    /** kuhn.py lines 104 and 109: the value of the node, each action's
        utility weighted by its probability under the cached strategy,
        accumulated in action order from zero. */
    static method NodeValue(strategy: array<real>, utils: seq<real>) returns (nodeUtil: real)
      requires |utils| <= strategy.Length
      ensures nodeUtil == Dot(strategy[..], utils)
    {
      nodeUtil := 0.0;
      for a := 0 to |utils|
        invariant nodeUtil == Dot(strategy[..], utils[..a])
      {
        DotPrefix(strategy[..], utils, a);
        nodeUtil := nodeUtil + strategy[a] * utils[a];
      }
      assert utils[..|utils|] == utils;
    }

    /** kuhn.py lines 107-108: the value of the child reached by action a,
        whose traversal leaves this node, and so its cached strategy, as it
        was. */
    method ChildValue(node: Node, strategy: array<real>, cards: seq<int>, history: History, pot: int,
                      traverser: nat, draw: nat -> real, ghost start: nat, ghost s1: Store, a: Action, next: nat)
      returns (childUtil: real, drawsUsed: nat)
      requires Valid() && |cards| >= 2 && !IsTerminal(history) && WellFormed(s1)
      requires KeyAt(cards, history) in nodes && nodes[KeyAt(cards, history)] == node
      requires strategy == node.strategy
      requires var e := Expand(s1, cards, history, pot, traverser, draw, start, a);
               Store() == e.store && next == e.next
      modifies this, Repr()
      ensures Valid()
      ensures forall o :: o in Repr() && o !in old(Repr()) ==> !old(allocated(o))
      ensures forall k :: k in old(nodes) ==> k in nodes && nodes[k] == old(nodes[k])
      ensures var e := Expand(s1, cards, history, pot, traverser, draw, start, a + 1);
              Store() == e.store && drawsUsed == e.next &&
              e.utils == Expand(s1, cards, history, pot, traverser, draw, start, a).utils + [childUtil]
      ensures strategy[..] == old(strategy[..])
      decreases Remaining(history), 0, 0
    {
      ghost var infoset := KeyAt(cards, history);
      ghost var n := Store()[infoset];
      ExpandStep(s1, cards, history, pot, traverser, draw, start, a);
      RemainingDecreases(history, a);
      ChildKeepsNode(Store(), cards, history, pot + a, traverser, draw, next, a);
      childUtil, drawsUsed := ExternalCfr(cards, history + [a], pot + a, traverser, draw, next);
      assert node.State() == n;
    }

    /** kuhn.py lines 118-128, at a node of the other player: one
        action is sampled with the draw, only its child is traversed, and the
        cached strategy array, read after the child returns, is added into the
        strategy sums. */
    method OpponentNode(node: Node, strategy: array<real>, cards: seq<int>, history: History, pot: int,
                        traverser: nat, draw: nat -> real, next: nat) returns (util: real, drawsUsed: nat)
      requires Valid() && |cards| >= 2 && !IsTerminal(history)
      requires KeyAt(cards, history) in nodes && nodes[KeyAt(cards, history)] == node
      requires strategy == node.strategy
      modifies this, Repr()
      ensures Valid()
      ensures forall o :: o in Repr() && o !in old(Repr()) ==> !old(allocated(o))
      ensures forall k :: k in old(nodes) ==> k in nodes && nodes[k] == old(nodes[k])
      ensures var o := OpponentStep(old(Store()), old(strategy[..]), cards, history, pot, traverser, draw, next);
              util == o.util && drawsUsed == o.next && Store() == o.store
      decreases Remaining(history), 1, 0
    {
      var infoset := KeyAt(cards, history);
      ghost var s1 := Store();
      ghost var strat := strategy[..];
      ghost var n := s1[infoset];
      ghost var a := Sampled(draw(next), strat);

      var nextHistory: History;
      var newPot := pot;
      if draw(next) < strategy[0] {
        nextHistory := history + [0];
      } else {
        nextHistory := history + [1];
        newPot := pot + 1;
      }
      assert nextHistory == history + [a] && newPot == pot + a;
      RemainingDecreases(history, a);
      ChildKeepsNode(s1, cards, history, newPot, traverser, draw, next + 1, a);
      util, drawsUsed := ExternalCfr(cards, nextHistory, newPot, traverser, draw, next + 1);
      assert node.State() == n;

      label BeforeSum:
      node.AccumulateStrategy();
      StoreChangedAt@BeforeSum(infoset);
      OpponentStepUpdate(s1, strat, cards, history, pot, traverser, draw, next);
    }

    /** cfr_iterations_external: iteration t (counted from 0) deals
        schedule[t][i] to player i's traversal, and util[i] totals the
        values of player i's traversals. */
    method CfrIterationsExternal(schedule: seq<seq<seq<int>>>, draw: nat -> real, next: nat)
      returns (util: seq<real>, drawsUsed: nat)
      requires Valid() && |schedule| == iterations
      requires ScheduleFrom(schedule, decksize)
      modifies this, Repr()
      ensures Valid()
      ensures forall o :: o in Repr() && o !in old(Repr()) ==> !old(allocated(o))
      ensures forall k :: k in old(nodes) ==> k in nodes && nodes[k] == old(nodes[k])
      ensures var r := Train(old(Store()), schedule, draw, next, iterations);
              util == r.util && Store() == r.store && drawsUsed == r.next
    {
      ScheduleOfDeals(schedule, decksize);
      ghost var s0 := Store();
      util := [0.0, 0.0];
      drawsUsed := next;
      assert Train(s0, schedule, draw, next, 0) == Training(util, s0, next);
      for t := 0 to iterations
        invariant Valid()
        invariant forall o :: o in Repr() && o !in old(Repr()) ==> !old(allocated(o))
        invariant forall k :: k in old(nodes) ==> k in nodes && nodes[k] == old(nodes[k])
        invariant var r := Train(s0, schedule, draw, next, t);
                  Store() == r.store && drawsUsed == r.next && util == r.util
      {
        util, drawsUsed := TrainingRound(schedule, draw, next, s0, t, util, drawsUsed);
      }
    }

    /** kuhn.py lines 73-75 for iteration t: one training iteration on the
        store the earlier iterations left, each player's value added into
        that player's total. */
    method TrainingRound(schedule: seq<seq<seq<int>>>, draw: nat -> real, ghost start: nat, ghost s0: Store,
                         t: nat, util: seq<real>, next: nat)
      returns (util': seq<real>, drawsUsed: nat)
      requires Valid() && WellFormed(s0) && t < |schedule|
      requires ScheduleFrom(schedule, decksize)
      requires var r := Train(s0, schedule, draw, start, t);
               Store() == r.store && next == r.next && util == r.util
      modifies this, Repr()
      ensures Valid()
      ensures forall o :: o in Repr() && o !in old(Repr()) ==> !old(allocated(o))
      ensures forall k :: k in old(nodes) ==> k in nodes && nodes[k] == old(nodes[k])
      ensures var r := Train(s0, schedule, draw, start, t + 1);
              Store() == r.store && drawsUsed == r.next && util' == r.util
    {
      TrainStep(s0, schedule, draw, start, t);
      var values;
      values, drawsUsed := TrainingIteration(schedule[t], draw, next);
      util' := Add(util, values);
    }

    /** One iteration of the loop of cfr_iterations_external: each player i
        in turn traverses the game from the empty history with a starting
        pot of 2 and the deal deals[i] (the first two cards after that
        player's shuffle); values[i] is the utility the source adds to
        util[i]. */
    method TrainingIteration(deals: seq<seq<int>>, draw: nat -> real, next: nat)
      returns (values: seq<real>, drawsUsed: nat)
      requires Valid() && |deals| == 2
      requires DealsFrom(deals, decksize)
      modifies this, Repr()
      ensures Valid()
      ensures forall o :: o in Repr() && o !in old(Repr()) ==> !old(allocated(o))
      ensures forall k :: k in old(nodes) ==> k in nodes && nodes[k] == old(nodes[k])
      ensures var r := Iteration(old(Store()), deals, draw, next, 2);
              values == r.utils && Store() == r.store && drawsUsed == r.next
    {
      ghost var s0 := Store();
      values := [];
      drawsUsed := next;
      for i := 0 to 2
        invariant Valid()
        invariant forall o :: o in Repr() && o !in old(Repr()) ==> !old(allocated(o))
        invariant forall k :: k in old(nodes) ==> k in nodes && nodes[k] == old(nodes[k])
        invariant var r := Iteration(s0, deals, draw, next, i);
                  Store() == r.store && drawsUsed == r.next && values == r.utils
      {
        var u;
        u, drawsUsed := PlayerTraversal(deals, draw, next, s0, i, drawsUsed);
        values := values + [u];
      }
    }

    /** kuhn.py line 75: player i traverses the game from
        the empty history with a starting pot of 2. */
    method PlayerTraversal(deals: seq<seq<int>>, draw: nat -> real, ghost start: nat, ghost s0: Store, i: nat, next: nat)
      returns (u: real, drawsUsed: nat)
      requires Valid() && WellFormed(s0) && i < |deals|
      requires forall j :: 0 <= j < |deals| ==> |deals[j]| >= 2
      requires var r := Iteration(s0, deals, draw, start, i);
               Store() == r.store && next == r.next
      modifies this, Repr()
      ensures Valid()
      ensures forall o :: o in Repr() && o !in old(Repr()) ==> !old(allocated(o))
      ensures forall k :: k in old(nodes) ==> k in nodes && nodes[k] == old(nodes[k])
      ensures var r := Iteration(s0, deals, draw, start, i + 1);
              var prev := Iteration(s0, deals, draw, start, i);
              Store() == r.store && drawsUsed == r.next && r.utils == prev.utils + [u]
    {
      IterationStep(s0, deals, draw, start, i);
      u, drawsUsed := ExternalCfr(deals[i], [], 2, i, draw, next);
    }
  }
}
