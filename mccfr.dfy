/** External-sampling Monte Carlo CFR on Kuhn poker as a pure function over
    the node store: the reference definition that the imperative traversal
    is proved to compute, and the facts it establishes about the store. */
module Mccfr {
  import opened StrategyVectors
  import opened KuhnGame
  import opened InfosetNode

  /** The dictionary self.nodes, by value. */
  type Store = map<InfosetKey, NodeState>

  /** Every node has two actions. */
  predicate WellFormed(store: Store)
  {
    forall k :: k in store ==>
      |store[k].regretSum| == 2 && |store[k].strategy| == 2 && |store[k].strategySum| == 2
  }

  /** The result of a traversal: the utility for the traversing player, the
      updated store, and how many random draws have been consumed in all. */
  datatype Outcome = Outcome(util: real, store: Store, next: nat)

  /** The information set at which the player to act after h decides. */
  function KeyAt(cards: seq<int>, h: History): InfosetKey
    requires |cards| >= 2
  {
    InfosetKey(cards[Acting(h)], h)
  }

  /** The node for key, or the zero node that would be created for it. */
  function NodeOrNew(store: Store, key: InfosetKey): NodeState
  {
    if key in store then store[key] else InitialState(2)
  }

  /** The store once the node for key exists and its cached strategy has
      been overwritten by get_strategy. */
  function Prepared(store: Store, key: InfosetKey): Store
  {
    var base := NodeOrNew(store, key);
    store[key := base.(strategy := RegretMatching(base.regretSum))]
  }

  /** Two deals meet the same information set at h exactly when the player
      to act holds the same card there: the other player's card is hidden. */
  lemma KeyAtHidesOpponentCard(cards: seq<int>, other: seq<int>, h: History, h': History)
    requires |cards| >= 2 && |other| >= 2
    ensures KeyAt(cards, h) == KeyAt(other, h') <==> h == h' && cards[Acting(h)] == other[Acting(h)]
  {
  }

  /** Once prepared, the node for key exists and nothing else has changed. A
      node that existed keeps its regrets, strategy sums and counters; a new
      node starts from zero with the uniform strategy. Either way the cached
      strategy is the regret-matching strategy of the node's regrets, a
      probability vector. */
  lemma PreparedNode(store: Store, key: InfosetKey)
    requires WellFormed(store)
    ensures var r := Prepared(store, key);
            && WellFormed(r) && r.Keys == store.Keys + {key}
            && (forall k :: k in store && k != key ==> r[k] == store[k])
            && r[key].strategy == RegretMatching(r[key].regretSum)
            && IsDistribution(r[key].strategy)
    ensures key in store ==>
              var n := Prepared(store, key)[key];
              && n.regretSum == store[key].regretSum && n.strategySum == store[key].strategySum
              && n.visitedCount == store[key].visitedCount && n.utilSum == store[key].utilSum
    ensures key !in store ==>
              Prepared(store, key)[key] == NodeState(Zeros(2), [0.5, 0.5], Zeros(2), 0, 0.0)
  {
    var base := NodeOrNew(store, key);
    RegretMatchingIsDistribution(base.regretSum);
    if key !in store {
      RegretMatchingCases(base.regretSum);
      assert RegretMatching(base.regretSum) == [0.5, 0.5];
    }
  }

  /** external_cfr. The random number drawn at the other player's nodes is
      draw(next), the next-th draw of the generator; the traversal returns
      the count of draws used so far. A terminal history pays off at once. */
  function Traverse(store: Store, cards: seq<int>, h: History, pot: int, traverser: nat,
                    draw: nat -> real, next: nat): (o: Outcome)
    requires WellFormed(store) && |cards| >= 2
    ensures WellFormed(o.store) && store.Keys <= o.store.Keys
    decreases Remaining(h), 2, 0
  {
    match TerminalPayoff(cards, h, pot, traverser)
    case Some(u) => Outcome(u, store, next)
    case None => DecisionStep(store, cards, h, pot, traverser, draw, next)
  }

  /** kuhn.py lines 96-102, 105 and 119: create the node if
      absent, refresh its cached strategy, and hand over to the step of the
      player to act. */
  function DecisionStep(store: Store, cards: seq<int>, h: History, pot: int, traverser: nat,
                        draw: nat -> real, next: nat): (o: Outcome)
    requires WellFormed(store) && |cards| >= 2 && !IsTerminal(h)
    ensures WellFormed(o.store) && store.Keys <= o.store.Keys
    decreases Remaining(h), 1, 1
  {
    var key := KeyAt(cards, h);
    var strat := RegretMatching(NodeOrNew(store, key).regretSum);
    if Acting(h) == traverser then
      TraverserStep(Prepared(store, key), strat, cards, h, pot, traverser, draw, next)
    else
      OpponentStep(Prepared(store, key), strat, cards, h, pot, traverser, draw, next)
  }

  /** The children of h visited so far by the traversing player's loop: their
      values in action order, the store and the draw counter after them. */
  datatype Expansion = Expansion(utils: seq<real>, store: Store, next: nat)

  /** The first n iterations of the loop over the actions at the traversing
      player's node: each child is traversed on the store and draw counter
      left by the one before, with the action's chips added to the pot. */
  function Expand(store: Store, cards: seq<int>, h: History, pot: int, traverser: nat,
                  draw: nat -> real, next: nat, n: nat): (e: Expansion)
    requires WellFormed(store) && |cards| >= 2 && !IsTerminal(h) && n <= 2
    ensures WellFormed(e.store) && store.Keys <= e.store.Keys && |e.utils| == n
    decreases Remaining(h), 0, n
  {
    if n == 0 then Expansion([], store, next)
    else
      var prev := Expand(store, cards, h, pot, traverser, draw, next, n - 1);
      RemainingDecreases(h, n - 1);
      var o := Traverse(prev.store, cards, h + [n - 1], pot + (n - 1), traverser, draw, prev.next);
      Expansion(prev.utils + [o.util], o.store, o.next)
  }

  /** kuhn.py lines 102-116: expand both actions, then update the
      regrets, the utility sum and the visit count of the node. */
  function TraverserStep(store: Store, strat: seq<real>, cards: seq<int>, h: History, pot: int,
                         traverser: nat, draw: nat -> real, next: nat): (o: Outcome)
    requires WellFormed(store) && |cards| >= 2 && !IsTerminal(h)
    requires KeyAt(cards, h) in store && |strat| == 2
    ensures WellFormed(o.store) && store.Keys <= o.store.Keys
    decreases Remaining(h), 1, 0
  {
    var key := KeyAt(cards, h);
    var e := Expand(store, cards, h, pot, traverser, draw, next, 2);
    var nodeUtil := Dot(strat, e.utils);
    Outcome(nodeUtil, e.store[key := Visited(e.store[key], e.utils, nodeUtil)], e.next)
  }

  /** The node of the traversing player once its children are valued: each
      regret grows by its action's utility minus the node's utility, the
      utility sum by the node's utility and the visit count by one. */
  function Visited(n: NodeState, utils: seq<real>, nodeUtil: real): (r: NodeState)
    requires |n.regretSum| == |utils|
    ensures |r.regretSum| == |n.regretSum|
    ensures r.strategy == n.strategy && r.strategySum == n.strategySum
  {
    n.(regretSum := AddRegrets(n.regretSum, utils, nodeUtil),
       utilSum := n.utilSum + nodeUtil,
       visitedCount := n.visitedCount + 1)
  }

  /** The action sampled at the other player's node: 0 exactly when the draw
      is below the current probability of action 0. */
  function Sampled(r: real, strat: seq<real>): Action
    requires |strat| == 2
  {
    if r < strat[0] then 0 else 1
  }

  /** Inverse-transform sampling: with a draw in [0, 1) and a probability
      vector, action 1 is taken exactly when the draw falls in
      [strategy[0], strategy[0] + strategy[1]), and an action of probability
      zero is never taken. */
  lemma SampledInterval(x: real, strat: seq<real>)
    requires |strat| == 2 && IsDistribution(strat) && 0.0 <= x < 1.0
    ensures Sampled(x, strat) == 1 <==> strat[0] <= x < strat[0] + strat[1]
    ensures forall a: Action :: strat[a] == 0.0 ==> Sampled(x, strat) != a
  {
    Sum2(strat);
  }

  /** kuhn.py lines 118-128: follow one sampled action, then add the
      current strategy into the node's strategy sums. */
  function OpponentStep(store: Store, strat: seq<real>, cards: seq<int>, h: History, pot: int,
                        traverser: nat, draw: nat -> real, next: nat): (o: Outcome)
    requires WellFormed(store) && |cards| >= 2 && !IsTerminal(h)
    requires KeyAt(cards, h) in store && |strat| == 2
    ensures WellFormed(o.store) && store.Keys <= o.store.Keys
    decreases Remaining(h), 1, 0
  {
    var a := Sampled(draw(next), strat);
    RemainingDecreases(h, a);
    var key := KeyAt(cards, h);
    var o := Traverse(store, cards, h + [a], pot + a, traverser, draw, next + 1);
    var after := o.store[key];
    var updated := after.(strategySum := Add(after.strategySum, strat));
    Outcome(o.util, o.store[key := updated], o.next)
  }

  /** No node outside the subtree of h differs between the two stores, and
      no key outside it was added. */
  ghost predicate SameOutside(before: Store, after: Store, h: History)
  {
    forall k :: k in after && !(h <= k.history) ==> k in before && after[k] == before[k]
  }

  /** No node outside the strict subtree of h differs between the two
      stores, and no key outside it was added: the node of h is kept too. */
  ghost predicate SameOutsideBelow(before: Store, after: Store, h: History)
  {
    forall k :: k in after && !(h <= k.history && |h| < |k.history|) ==> k in before && after[k] == before[k]
  }

  lemma SameOutsideChild(before: Store, after: Store, h: History, a: Action)
    requires SameOutside(before, after, h + [a])
    ensures SameOutsideBelow(before, after, h)
  {
  }

  lemma SameOutsideBelowTrans(s0: Store, s1: Store, s2: Store, h: History)
    requires SameOutsideBelow(s0, s1, h) && SameOutsideBelow(s1, s2, h)
    ensures SameOutsideBelow(s0, s2, h)
  {
  }

  lemma SameOutsideUpdate(store: Store, k: InfosetKey, v: NodeState)
    ensures SameOutside(store, store[k := v], k.history)
  {
  }

  /** A traversal from h changes no node outside the subtree of h and creates
      none there: the nodes outside the subtree, the parent's included, are
      left as they were, and so the node of h itself is left alone by the
      traversals of its children. */
  lemma {:induction false} TraverseFrame(store: Store, cards: seq<int>, h: History, pot: int,
                                         traverser: nat, draw: nat -> real, next: nat)
    requires WellFormed(store) && |cards| >= 2
    ensures SameOutside(store, Traverse(store, cards, h, pot, traverser, draw, next).store, h)
    decreases Remaining(h), 2, 0
  {
    if !IsTerminal(h) {
      var key := KeyAt(cards, h);
      var strat := RegretMatching(NodeOrNew(store, key).regretSum);
      var s1 := Prepared(store, key);
      SameOutsideUpdate(store, key, s1[key]);
      if Acting(h) == traverser {
        TraverserStepFrame(s1, strat, cards, h, pot, traverser, draw, next);
      } else {
        OpponentStepFrame(s1, strat, cards, h, pot, traverser, draw, next);
      }
    }
  }

  /** The loop over the children changes only nodes strictly below h. */
  lemma {:induction false} ExpandFrame(store: Store, cards: seq<int>, h: History, pot: int,
                                       traverser: nat, draw: nat -> real, next: nat, n: nat)
    requires WellFormed(store) && |cards| >= 2 && !IsTerminal(h) && n <= 2
    ensures SameOutsideBelow(store, Expand(store, cards, h, pot, traverser, draw, next, n).store, h)
    decreases Remaining(h), 0, n
  {
    if n > 0 {
      var a: Action := n - 1;
      var prev := Expand(store, cards, h, pot, traverser, draw, next, a);
      ExpandFrame(store, cards, h, pot, traverser, draw, next, a);
      RemainingDecreases(h, a);
      var o := Traverse(prev.store, cards, h + [a], pot + a, traverser, draw, prev.next);
      TraverseFrame(prev.store, cards, h + [a], pot + a, traverser, draw, prev.next);
      SameOutsideChild(prev.store, o.store, h, a);
      SameOutsideBelowTrans(store, prev.store, o.store, h);
    }
  }

  lemma {:induction false} TraverserStepFrame(store: Store, strat: seq<real>, cards: seq<int>, h: History, pot: int,
                                              traverser: nat, draw: nat -> real, next: nat)
    requires WellFormed(store) && |cards| >= 2 && !IsTerminal(h)
    requires KeyAt(cards, h) in store && |strat| == 2
    ensures SameOutside(store, TraverserStep(store, strat, cards, h, pot, traverser, draw, next).store, h)
    decreases Remaining(h), 1, 0
  {
    var key := KeyAt(cards, h);
    var e := Expand(store, cards, h, pot, traverser, draw, next, 2);
    ExpandFrame(store, cards, h, pot, traverser, draw, next, 2);
    var o := TraverserStep(store, strat, cards, h, pot, traverser, draw, next);
    SameOutsideUpdate(e.store, key, o.store[key]);
  }

  lemma {:induction false} OpponentStepFrame(store: Store, strat: seq<real>, cards: seq<int>, h: History, pot: int,
                                             traverser: nat, draw: nat -> real, next: nat)
    requires WellFormed(store) && |cards| >= 2 && !IsTerminal(h)
    requires KeyAt(cards, h) in store && |strat| == 2
    ensures SameOutside(store, OpponentStep(store, strat, cards, h, pot, traverser, draw, next).store, h)
    decreases Remaining(h), 1, 0
  {
    var a := Sampled(draw(next), strat);
    RemainingDecreases(h, a);
    var key := KeyAt(cards, h);
    var c := Traverse(store, cards, h + [a], pot + a, traverser, draw, next + 1);
    TraverseFrame(store, cards, h + [a], pot + a, traverser, draw, next + 1);
    SameOutsideChild(store, c.store, h, a);
    var o := OpponentStep(store, strat, cards, h, pot, traverser, draw, next);
    SameOutsideUpdate(c.store, key, o.store[key]);
  }

  /** Every key added between the two stores lies in the subtree of h and has
      a history shorter than bound. */
  ghost predicate NewWithin(before: Store, after: Store, h: History, bound: nat)
  {
    forall k :: k in after && k !in before ==> h <= k.history && |k.history| < bound
  }

  lemma NewWithinWiden(before: Store, after: Store, h: History, a: Action, inner: nat, bound: nat)
    requires NewWithin(before, after, h + [a], inner) && inner <= bound
    ensures NewWithin(before, after, h, bound)
  {
    forall k | k in after && k !in before
      ensures h <= k.history
    {
      assert h + [a] <= k.history;
      assert k.history[..|h|] == (h + [a])[..|h|] == h;
    }
  }

  lemma NewWithinTrans(s0: Store, s1: Store, s2: Store, h: History, bound: nat)
    requires NewWithin(s0, s1, h, bound) && NewWithin(s1, s2, h, bound)
    ensures NewWithin(s0, s2, h, bound)
  {
  }

  /** Every node a traversal from h creates belongs to an extension of h
      shorter than |h| + Remaining(h). */
  lemma {:induction false} TraverseNewKeys(store: Store, cards: seq<int>, h: History, pot: int,
                                           traverser: nat, draw: nat -> real, next: nat)
    requires WellFormed(store) && |cards| >= 2
    ensures NewWithin(store, Traverse(store, cards, h, pot, traverser, draw, next).store, h, |h| + Remaining(h))
    decreases Remaining(h), 2, 0
  {
    if !IsTerminal(h) {
      var key := KeyAt(cards, h);
      var strat := RegretMatching(NodeOrNew(store, key).regretSum);
      var s1 := Prepared(store, key);
      if Acting(h) == traverser {
        TraverserStepNewKeys(s1, strat, cards, h, pot, traverser, draw, next);
      } else {
        OpponentStepNewKeys(s1, strat, cards, h, pot, traverser, draw, next);
      }
    }
  }

  lemma {:induction false} ExpandNewKeys(store: Store, cards: seq<int>, h: History, pot: int,
                                         traverser: nat, draw: nat -> real, next: nat, n: nat)
    requires WellFormed(store) && |cards| >= 2 && !IsTerminal(h) && n <= 2
    ensures NewWithin(store, Expand(store, cards, h, pot, traverser, draw, next, n).store, h, |h| + Remaining(h))
    decreases Remaining(h), 0, n
  {
    if n > 0 {
      var a: Action := n - 1;
      var prev := Expand(store, cards, h, pot, traverser, draw, next, a);
      ExpandNewKeys(store, cards, h, pot, traverser, draw, next, a);
      RemainingDecreases(h, a);
      var o := Traverse(prev.store, cards, h + [a], pot + a, traverser, draw, prev.next);
      TraverseNewKeys(prev.store, cards, h + [a], pot + a, traverser, draw, prev.next);
      NewWithinWiden(prev.store, o.store, h, a, |h + [a]| + Remaining(h + [a]), |h| + Remaining(h));
      NewWithinTrans(store, prev.store, o.store, h, |h| + Remaining(h));
    }
  }

  lemma {:induction false} TraverserStepNewKeys(store: Store, strat: seq<real>, cards: seq<int>, h: History, pot: int,
                                                traverser: nat, draw: nat -> real, next: nat)
    requires WellFormed(store) && |cards| >= 2 && !IsTerminal(h)
    requires KeyAt(cards, h) in store && |strat| == 2
    ensures NewWithin(store, TraverserStep(store, strat, cards, h, pot, traverser, draw, next).store, h, |h| + Remaining(h))
    decreases Remaining(h), 1, 0
  {
    ExpandNewKeys(store, cards, h, pot, traverser, draw, next, 2);
  }

  lemma {:induction false} OpponentStepNewKeys(store: Store, strat: seq<real>, cards: seq<int>, h: History, pot: int,
                                               traverser: nat, draw: nat -> real, next: nat)
    requires WellFormed(store) && |cards| >= 2 && !IsTerminal(h)
    requires KeyAt(cards, h) in store && |strat| == 2
    ensures NewWithin(store, OpponentStep(store, strat, cards, h, pot, traverser, draw, next).store, h, |h| + Remaining(h))
    decreases Remaining(h), 1, 0
  {
    var a := Sampled(draw(next), strat);
    RemainingDecreases(h, a);
    var o := Traverse(store, cards, h + [a], pot + a, traverser, draw, next + 1);
    TraverseNewKeys(store, cards, h + [a], pot + a, traverser, draw, next + 1);
    NewWithinWiden(store, o.store, h, a, |h + [a]| + Remaining(h + [a]), |h| + Remaining(h));
  }

  /** From the empty history every node created has a history of at most two
      actions: a game of Kuhn poker ends after at most three actions. */
  lemma TraverseDepthFromRoot(store: Store, cards: seq<int>, pot: int, traverser: nat,
                              draw: nat -> real, next: nat)
    requires WellFormed(store) && |cards| >= 2
    ensures var o := Traverse(store, cards, [], pot, traverser, draw, next);
            forall k :: k in o.store && k !in store ==> |k.history| <= 2
  {
    TraverseNewKeys(store, cards, [], pot, traverser, draw, next);
  }

  /** The traversals of the children leave the node of h as get_strategy
      left it. */
  lemma ExpandKeepsNode(store: Store, cards: seq<int>, h: History, pot: int,
                        traverser: nat, draw: nat -> real, next: nat, n: nat)
    requires WellFormed(store) && |cards| >= 2 && !IsTerminal(h) && n <= 2 && KeyAt(cards, h) in store
    ensures var e := Expand(store, cards, h, pot, traverser, draw, next, n);
            KeyAt(cards, h) in e.store && e.store[KeyAt(cards, h)] == store[KeyAt(cards, h)]
  {
    ExpandFrame(store, cards, h, pot, traverser, draw, next, n);
  }

  /** The same for the one child the other player's node visits. */
  lemma ChildKeepsNode(store: Store, cards: seq<int>, h: History, pot: int,
                       traverser: nat, draw: nat -> real, next: nat, a: Action)
    requires WellFormed(store) && |cards| >= 2 && KeyAt(cards, h) in store
    ensures var o := Traverse(store, cards, h + [a], pot, traverser, draw, next);
            KeyAt(cards, h) in o.store && o.store[KeyAt(cards, h)] == store[KeyAt(cards, h)]
  {
    TraverseFrame(store, cards, h + [a], pot, traverser, draw, next);
    assert !(h + [a] <= KeyAt(cards, h).history);
  }

  /** One more iteration of the loop over the actions: the next child is
      traversed on the store and draw counter the earlier ones left. */
  lemma ExpandStep(store: Store, cards: seq<int>, h: History, pot: int,
                   traverser: nat, draw: nat -> real, next: nat, a: nat)
    requires WellFormed(store) && |cards| >= 2 && !IsTerminal(h) && a < 2
    ensures var prev := Expand(store, cards, h, pot, traverser, draw, next, a);
            var o := Traverse(prev.store, cards, h + [a], pot + a, traverser, draw, prev.next);
            Expand(store, cards, h, pot, traverser, draw, next, a + 1) == Expansion(prev.utils + [o.util], o.store, o.next)
  {
  }

  /** The two iterations of the loop over the actions, spelled out. */
  lemma ExpandTwo(store: Store, cards: seq<int>, h: History, pot: int,
                  traverser: nat, draw: nat -> real, next: nat, o0: Outcome, o1: Outcome)
    requires WellFormed(store) && |cards| >= 2 && !IsTerminal(h)
    requires o0 == Traverse(store, cards, h + [0], pot + 0, traverser, draw, next)
    requires o1 == Traverse(o0.store, cards, h + [1], pot + 1, traverser, draw, o0.next)
    ensures Expand(store, cards, h, pot, traverser, draw, next, 2) == Expansion([o0.util, o1.util], o1.store, o1.next)
  {
    assert Expand(store, cards, h, pot, traverser, draw, next, 0) == Expansion([], store, next);
    assert Expand(store, cards, h, pot, traverser, draw, next, 1) == Expansion([] + [o0.util], o0.store, o0.next);
  }

  /** The value at a node of the traversing player: both children are
      evaluated in turn, the second on the store and draw counter the first
      left and with one more chip in the pot, and the node's value, which is
      returned, is their strategy-weighted sum (Dot2 spells it out). */
  lemma TraverserStepValue(store: Store, strat: seq<real>, cards: seq<int>, h: History, pot: int,
                           traverser: nat, draw: nat -> real, next: nat, o0: Outcome, o1: Outcome)
    requires WellFormed(store) && |cards| >= 2 && !IsTerminal(h)
    requires KeyAt(cards, h) in store && |strat| == 2
    requires o0 == Traverse(store, cards, h + [0], pot + 0, traverser, draw, next)
    requires o1 == Traverse(o0.store, cards, h + [1], pot + 1, traverser, draw, o0.next)
    ensures var o := TraverserStep(store, strat, cards, h, pot, traverser, draw, next);
            o.util == Dot(strat, [o0.util, o1.util]) && o.next == o1.next
  {
    ExpandTwo(store, cards, h, pot, traverser, draw, next, o0, o1);
  }

  /** The accounting at a node of the traversing player: after both children
      each regret has grown by its child's value minus the node's value, the
      visit count by one and the utility sum by the node's value; the
      strategy sums and the cached strategy are untouched, and every other
      node is as the second child left it. */
  lemma TraverserStepAccounting(store: Store, strat: seq<real>, cards: seq<int>, h: History, pot: int,
                                traverser: nat, draw: nat -> real, next: nat, o0: Outcome, o1: Outcome)
    requires WellFormed(store) && |cards| >= 2 && !IsTerminal(h)
    requires KeyAt(cards, h) in store && |strat| == 2
    requires o0 == Traverse(store, cards, h + [0], pot + 0, traverser, draw, next)
    requires o1 == Traverse(o0.store, cards, h + [1], pot + 1, traverser, draw, o0.next)
    ensures var key := KeyAt(cards, h);
            var n := store[key];
            var nodeUtil := Dot(strat, [o0.util, o1.util]);
            TraverserStep(store, strat, cards, h, pot, traverser, draw, next).store ==
              o1.store[key := n.(regretSum := AddRegrets(n.regretSum, [o0.util, o1.util], nodeUtil),
                                 visitedCount := n.visitedCount + 1,
                                 utilSum := n.utilSum + nodeUtil)]
  {
    ExpandTwo(store, cards, h, pot, traverser, draw, next, o0, o1);
    ExpandKeepsNode(store, cards, h, pot, traverser, draw, next, 2);
  }

  /** Each regret grows by its child's value minus the node's value, and
      these increments, weighted by the strategy that produced the node's
      value, cancel out. */
  lemma RegretIncrementsBalance(regret: seq<real>, strat: seq<real>, u0: real, u1: real)
    requires |regret| == 2 && |strat| == 2 && IsDistribution(strat)
    ensures var nodeUtil := Dot(strat, [u0, u1]);
            var r := AddRegrets(regret, [u0, u1], nodeUtil);
            && r[0] - regret[0] == u0 - nodeUtil
            && r[1] - regret[1] == u1 - nodeUtil
            && strat[0] * (r[0] - regret[0]) + strat[1] * (r[1] - regret[1]) == 0.0
  {
    var e := Dot(strat, [u0, u1]);
    Dot2(strat, u0, u1);
    Sum2(strat);
    assert strat[0] * (u0 - e) + strat[1] * (u1 - e) == e - (strat[0] + strat[1]) * e;
  }

  /** The accounting at a node of the other player: exactly one child is
      explored, action 0 exactly when the draw is below the current
      probability of action 0, with one more chip in the pot for action 1; its
      value is returned unweighted; every strategy sum grows by that action's
      current probability; the other accumulators and the cached strategy are
      untouched. */
  lemma OpponentStepUpdate(store: Store, strat: seq<real>, cards: seq<int>, h: History, pot: int,
                           traverser: nat, draw: nat -> real, next: nat)
    requires WellFormed(store) && |cards| >= 2 && !IsTerminal(h)
    requires KeyAt(cards, h) in store && |strat| == 2
    ensures
      var key := KeyAt(cards, h);
      var n := store[key];
      var a := Sampled(draw(next), strat);
      var child := Traverse(store, cards, h + [a], pot + a, traverser, draw, next + 1);
      var o := OpponentStep(store, strat, cards, h, pot, traverser, draw, next);
      && o.util == child.util
      && o.next == child.next
      && o.store == child.store[key := n.(strategySum := Add(n.strategySum, strat))]
  {
    var key := KeyAt(cards, h);
    var a := Sampled(draw(next), strat);
    RemainingDecreases(h, a);
    ChildKeepsNode(store, cards, h, pot + a, traverser, draw, next + 1, a);
    var child := Traverse(store, cards, h + [a], pot + a, traverser, draw, next + 1);
    var o := OpponentStep(store, strat, cards, h, pot, traverser, draw, next);
    assert o.store == child.store[key := child.store[key].(strategySum := Add(child.store[key].strategySum, strat))];
  }

  /** Only the sampled child is explored: the subtree of the other action is
      left exactly as it was. */
  lemma OpponentStepSkipsOtherAction(store: Store, strat: seq<real>, cards: seq<int>, h: History, pot: int,
                                     traverser: nat, draw: nat -> real, next: nat)
    requires WellFormed(store) && |cards| >= 2 && !IsTerminal(h)
    requires KeyAt(cards, h) in store && |strat| == 2
    ensures
      var a := Sampled(draw(next), strat);
      var o := OpponentStep(store, strat, cards, h, pot, traverser, draw, next);
      forall k :: k in o.store && h + [1 - a] <= k.history ==> k in store && o.store[k] == store[k]
  {
    var key := KeyAt(cards, h);
    var a := Sampled(draw(next), strat);
    RemainingDecreases(h, a);
    TraverseFrame(store, cards, h + [a], pot + a, traverser, draw, next + 1);
    var o := OpponentStep(store, strat, cards, h, pot, traverser, draw, next);
    forall k | k in o.store && h + [1 - a] <= k.history
      ensures k in store && o.store[k] == store[k]
    {
      assert k.history[|h|] == (h + [1 - a])[|h|] == 1 - a;
      assert (h + [a])[|h|] == a;
      assert !(h + [a] <= k.history);
      assert k != key;
    }
  }

  /** At the other player's node the strategy sums grow in total by exactly
      one, the total probability of the strategy added. */
  lemma OpponentStrategySumGrowsByOne(store: Store, strat: seq<real>, cards: seq<int>, h: History, pot: int,
                                      traverser: nat, draw: nat -> real, next: nat)
    requires WellFormed(store) && |cards| >= 2 && !IsTerminal(h)
    requires KeyAt(cards, h) in store && IsDistribution(strat) && |strat| == 2
    ensures
      var key := KeyAt(cards, h);
      var o := OpponentStep(store, strat, cards, h, pot, traverser, draw, next);
      && key in o.store
      && Sum(o.store[key].strategySum) == Sum(store[key].strategySum) + 1.0
  {
    var key := KeyAt(cards, h);
    OpponentStepUpdate(store, strat, cards, h, pot, traverser, draw, next);
    var o := OpponentStep(store, strat, cards, h, pot, traverser, draw, next);
    SumAdd(store[key].strategySum, strat);
  }

  /** Strategy sums only ever grow by probabilities. */
  ghost predicate StrategySumsNonNegative(store: Store)
  {
    forall k :: k in store ==> NonNegative(store[k].strategySum)
  }

  /** A traversal keeps every strategy sum non-negative. */
  lemma {:induction false} TraverseKeepsSumsNonNegative(store: Store, cards: seq<int>, h: History, pot: int,
                                                        traverser: nat, draw: nat -> real, next: nat)
    requires WellFormed(store) && |cards| >= 2 && StrategySumsNonNegative(store)
    ensures StrategySumsNonNegative(Traverse(store, cards, h, pot, traverser, draw, next).store)
    decreases Remaining(h), 2, 0
  {
    if !IsTerminal(h) {
      var key := KeyAt(cards, h);
      var strat := RegretMatching(NodeOrNew(store, key).regretSum);
      var s1 := Prepared(store, key);
      assert StrategySumsNonNegative(s1);
      RegretMatchingIsDistribution(NodeOrNew(store, key).regretSum);
      if Acting(h) == traverser {
        TraverserStepKeepsSumsNonNegative(s1, strat, cards, h, pot, traverser, draw, next);
      } else {
        OpponentStepKeepsSumsNonNegative(s1, strat, cards, h, pot, traverser, draw, next);
      }
    }
  }

  lemma {:induction false} ExpandKeepsSumsNonNegative(store: Store, cards: seq<int>, h: History, pot: int,
                                                      traverser: nat, draw: nat -> real, next: nat, n: nat)
    requires WellFormed(store) && |cards| >= 2 && !IsTerminal(h) && n <= 2 && StrategySumsNonNegative(store)
    ensures StrategySumsNonNegative(Expand(store, cards, h, pot, traverser, draw, next, n).store)
    decreases Remaining(h), 0, n
  {
    if n > 0 {
      var a: Action := n - 1;
      var prev := Expand(store, cards, h, pot, traverser, draw, next, a);
      ExpandKeepsSumsNonNegative(store, cards, h, pot, traverser, draw, next, a);
      RemainingDecreases(h, a);
      TraverseKeepsSumsNonNegative(prev.store, cards, h + [a], pot + a, traverser, draw, prev.next);
    }
  }

  lemma {:induction false} TraverserStepKeepsSumsNonNegative(store: Store, strat: seq<real>, cards: seq<int>, h: History,
                                                             pot: int, traverser: nat, draw: nat -> real, next: nat)
    requires WellFormed(store) && |cards| >= 2 && !IsTerminal(h)
    requires KeyAt(cards, h) in store && |strat| == 2 && StrategySumsNonNegative(store)
    ensures StrategySumsNonNegative(TraverserStep(store, strat, cards, h, pot, traverser, draw, next).store)
    decreases Remaining(h), 1, 0
  {
    ExpandKeepsSumsNonNegative(store, cards, h, pot, traverser, draw, next, 2);
  }

  lemma {:induction false} OpponentStepKeepsSumsNonNegative(store: Store, strat: seq<real>, cards: seq<int>, h: History,
                                                            pot: int, traverser: nat, draw: nat -> real, next: nat)
    requires WellFormed(store) && |cards| >= 2 && !IsTerminal(h)
    requires KeyAt(cards, h) in store && |strat| == 2 && StrategySumsNonNegative(store)
    requires NonNegative(strat)
    ensures StrategySumsNonNegative(OpponentStep(store, strat, cards, h, pot, traverser, draw, next).store)
    decreases Remaining(h), 1, 0
  {
    var a := Sampled(draw(next), strat);
    RemainingDecreases(h, a);
    TraverseKeepsSumsNonNegative(store, cards, h + [a], pot + a, traverser, draw, next + 1);
  }

  /** Hence in every store the training produces from the empty one, every
      node's average strategy is a probability vector. */
  lemma AverageStrategiesAreDistributions(store: Store, k: InfosetKey)
    requires WellFormed(store) && StrategySumsNonNegative(store) && k in store
    ensures IsDistribution(AverageStrategy(store[k].strategySum))
  {
    AverageStrategyIsDistribution(store[k].strategySum);
  }

  /** The traversals of one training iteration so far: the utility each
      traversing player got, and the store and draw counter after them. */
  datatype Sweep = Sweep(utils: seq<real>, store: Store, next: nat)

  /** The first n traversals of one iteration of cfr_iterations_external:
      player i traverses from the empty history with the deal deals[i] and
      a starting pot of 2, on the store and draws the traversals before it
      left. */
  function Iteration(store: Store, deals: seq<seq<int>>, draw: nat -> real, next: nat, n: nat): (r: Sweep)
    requires WellFormed(store) && n <= |deals|
    requires forall i :: 0 <= i < |deals| ==> |deals[i]| >= 2
    ensures WellFormed(r.store) && store.Keys <= r.store.Keys && |r.utils| == n
    decreases n
  {
    if n == 0 then Sweep([], store, next)
    else
      var prev := Iteration(store, deals, draw, next, n - 1);
      var o := Traverse(prev.store, deals[n - 1], [], 2, n - 1, draw, prev.next);
      Sweep(prev.utils + [o.util], o.store, o.next)
  }

  /** One more traversal of the iteration: the next player traverses on the
      store and draw counter the earlier traversals left. */
  lemma IterationStep(store: Store, deals: seq<seq<int>>, draw: nat -> real, next: nat, i: nat)
    requires WellFormed(store) && i < |deals|
    requires forall j :: 0 <= j < |deals| ==> |deals[j]| >= 2
    ensures var prev := Iteration(store, deals, draw, next, i);
            var o := Traverse(prev.store, deals[i], [], 2, i, draw, prev.next);
            Iteration(store, deals, draw, next, i + 1) == Sweep(prev.utils + [o.util], o.store, o.next)
  {
  }

  /** Every node a training iteration creates belongs to a history of at
      most two actions. */
  lemma {:induction false} IterationDepth(store: Store, deals: seq<seq<int>>, draw: nat -> real, next: nat, n: nat)
    requires WellFormed(store) && n <= |deals|
    requires forall i :: 0 <= i < |deals| ==> |deals[i]| >= 2
    ensures var r := Iteration(store, deals, draw, next, n);
            forall k :: k in r.store && k !in store ==> |k.history| <= 2
    decreases n
  {
    if n > 0 {
      var i: nat := n - 1;
      var prev := Iteration(store, deals, draw, next, i);
      IterationDepth(store, deals, draw, next, i);
      TraverseDepthFromRoot(prev.store, deals[i], 2, i, draw, prev.next);
    }
  }

  /** A training iteration keeps every strategy sum non-negative, so every
      node it leaves has a probability vector as its average strategy. */
  lemma {:induction false} IterationKeepsAveragesDistributions(store: Store, deals: seq<seq<int>>, draw: nat -> real,
                                                               next: nat, n: nat)
    requires WellFormed(store) && n <= |deals| && StrategySumsNonNegative(store)
    requires forall i :: 0 <= i < |deals| ==> |deals[i]| >= 2
    ensures var r := Iteration(store, deals, draw, next, n);
            StrategySumsNonNegative(r.store) &&
            forall k :: k in r.store ==> IsDistribution(AverageStrategy(r.store[k].strategySum))
    decreases n
  {
    var r := Iteration(store, deals, draw, next, n);
    if n > 0 {
      var i: nat := n - 1;
      var prev := Iteration(store, deals, draw, next, i);
      IterationKeepsAveragesDistributions(store, deals, draw, next, i);
      TraverseKeepsSumsNonNegative(prev.store, deals[i], [], 2, i, draw, prev.next);
    }
    forall k | k in r.store
      ensures IsDistribution(AverageStrategy(r.store[k].strategySum))
    {
      AverageStrategiesAreDistributions(r.store, k);
    }
  }

  /** A schedule of deals for cfr_iterations_external: for every iteration,
      one deal of at least two cards per player. */
  predicate Schedule(schedule: seq<seq<seq<int>>>)
  {
    forall t :: 0 <= t < |schedule| ==>
      |schedule[t]| == 2 && forall i :: 0 <= i < 2 ==> |schedule[t][i]| >= 2
  }

  /** A schedule of deals from a deck is a schedule. */
  lemma ScheduleOfDeals(schedule: seq<seq<seq<int>>>, decksize: int)
    requires ScheduleFrom(schedule, decksize)
    ensures Schedule(schedule)
  {
  }

  /** The running totals util[0] and util[1], the store and the draw counter
      after some iterations of the training loop. */
  datatype Training = Training(util: seq<real>, store: Store, next: nat)

  /** The first t iterations of cfr_iterations_external: iteration t runs
      one training iteration with the deals schedule[t] on the store and
      draws the iterations before it left, and adds each player's value
      into that player's total. */
  function Train(store: Store, schedule: seq<seq<seq<int>>>, draw: nat -> real, next: nat, t: nat): (r: Training)
    requires WellFormed(store) && Schedule(schedule) && t <= |schedule|
    ensures WellFormed(r.store) && store.Keys <= r.store.Keys && |r.util| == 2
    ensures StrategySumsNonNegative(store) ==> StrategySumsNonNegative(r.store)
    decreases t
  {
    if t == 0 then Training([0.0, 0.0], store, next)
    else
      var prev := Train(store, schedule, draw, next, t - 1);
      var it := Iteration(prev.store, schedule[t - 1], draw, prev.next, 2);
      IterationKeepsSums(prev.store, schedule[t - 1], draw, prev.next);
      Training(Add(prev.util, it.utils), it.store, it.next)
  }

  lemma IterationKeepsSums(store: Store, deals: seq<seq<int>>, draw: nat -> real, next: nat)
    requires WellFormed(store) && |deals| == 2
    requires forall i :: 0 <= i < |deals| ==> |deals[i]| >= 2
    ensures StrategySumsNonNegative(store) ==> StrategySumsNonNegative(Iteration(store, deals, draw, next, 2).store)
  {
    if StrategySumsNonNegative(store) {
      IterationKeepsAveragesDistributions(store, deals, draw, next, 2);
    }
  }

  /** One more iteration of the training loop. */
  lemma TrainStep(store: Store, schedule: seq<seq<seq<int>>>, draw: nat -> real, next: nat, t: nat)
    requires WellFormed(store) && Schedule(schedule) && t < |schedule|
    ensures var prev := Train(store, schedule, draw, next, t);
            var it := Iteration(prev.store, schedule[t], draw, prev.next, 2);
            Train(store, schedule, draw, next, t + 1) ==
              Training(Add(prev.util, it.utils), it.store, it.next)
  {
  }

  /** Every node the whole training run creates belongs to a history of at
      most two actions. */
  lemma {:induction false} TrainDepth(store: Store, schedule: seq<seq<seq<int>>>, draw: nat -> real, next: nat, t: nat)
    requires WellFormed(store) && Schedule(schedule) && t <= |schedule|
    ensures var r := Train(store, schedule, draw, next, t);
            forall k :: k in r.store && k !in store ==> |k.history| <= 2
    decreases t
  {
    if t > 0 {
      var s: nat := t - 1;
      var prev := Train(store, schedule, draw, next, s);
      TrainStep(store, schedule, draw, next, s);
      TrainDepth(store, schedule, draw, next, s);
      IterationDepth(prev.store, schedule[s], draw, prev.next, 2);
    }
  }

  /** After any number of training iterations every node's average
      strategy, the output of get_average_strategy, is a probability
      vector. */
  lemma TrainKeepsAveragesDistributions(store: Store, schedule: seq<seq<seq<int>>>,
                                        draw: nat -> real, next: nat, t: nat)
    requires WellFormed(store) && Schedule(schedule) && t <= |schedule| && StrategySumsNonNegative(store)
    ensures var r := Train(store, schedule, draw, next, t);
            forall k :: k in r.store ==> IsDistribution(AverageStrategy(r.store[k].strategySum))
  {
    var r := Train(store, schedule, draw, next, t);
    forall k | k in r.store
      ensures IsDistribution(AverageStrategy(r.store[k].strategySum))
    {
      AverageStrategiesAreDistributions(r.store, k);
    }
  }
}
