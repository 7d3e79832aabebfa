# Kuhn poker external-sampling MCCFR, modelled in Dafny

`kuhn.py` trains a strategy for two-player Kuhn poker. It uses external-sampling
Monte Carlo counterfactual regret minimisation (MCCFR). Each game state is
described by a history of actions (0 = check or fold, 1 = bet or call). The
acting player's view of that state is an *information set*, identified by
their own card and the public history.

The trainer keeps a dictionary `nodes` from information sets to `Node`
objects. Each node accumulates:

- `regret_sum`, the cumulative regrets;
- `strategy`, a cached current strategy;
- `strategy_sum`, the sum of the strategies played;
- `visited_count` and `util_sum`.

`external_cfr` walks the game tree recursively:

- at terminal histories it pays off a fold or a showdown;
- elsewhere it creates the node if it is missing and refreshes the node's
  strategy by regret matching (`get_strategy`);
- at the traversing player's nodes it expands both actions and updates the
  regrets;
- at the other player's nodes it samples one action and adds the current
  strategy into the strategy sums.

The Dafny project has five modules.

- `StrategyVectors` (`strategy_vectors.dfy`) holds regret matching and
  normalisation as functions on `seq<real>`, with the lemmas that they yield
  probability vectors.
- `KuhnGame` (`kuhn_game.dfy`) holds actions, histories, information-set
  keys and the terminal payoff as a pure function. It states the sign table,
  zero-sum and termination.
- `InfosetNode` (`infoset_node.dfy`) holds the class `Node`. Its three
  accumulators are `array<real>` fields, and `GetStrategy` overwrites the
  cached strategy array in place and returns that same array.
- `Mccfr` (`mccfr.dfy`) is the reference traversal as a pure function over
  the node store by value (`map<InfosetKey, NodeState>`). It also holds the
  frame and accounting lemmas about that traversal.
- `KuhnTrainer` (`kuhn_cfr.dfy`) holds the class `KuhnCfr`, whose
  `nodes: map<InfosetKey, Node>` is updated in place by the recursive method
  `ExternalCfr`. `CfrIterationsExternal` runs the training loop over it.
  - Every method states the store it leaves as the reference traversal
    computes it.
  - Every method also states that no node already present is replaced and
    that every new object is freshly allocated.
  - A ghost map `Owner` records which key each node and array belongs to,
    so different keys never share an array.

Randomness is a parameter:

- `draw: nat -> real` gives the value of the n-th call of `random.random()`;
- a counter threads the number of draws used so far through the traversal;
- the deals are an input: `schedule[t][i]` stands for `self.cards[:2]`
  after the shuffle before player i's traversal in iteration t.

## Model

| member | source | states |
|---|---|---|
| StrategyVectors.RegretMatchingIsDistribution | kuhn.py:14-29 | for every non-empty regret vector, including all-zero and all-negative ones, the strategy computed from it has non-negative entries summing to 1 |
| StrategyVectors.RegretMatchingCases | kuhn.py:16-27 | if no regret is positive, every entry is 1/n; if some regret is positive, the total of the positive parts is positive and entry a is max(regret[a], 0) divided by that total |
| StrategyVectors.AverageStrategyIsDistribution | kuhn.py:31-43 | for non-negative strategy sums the average strategy is a probability vector; it is uniform when the sums total 0 and strategy_sum[a] / total otherwise |
| StrategyVectors.RegretMatching | kuhn.py:16-27 | the strategy has one entry per action, as many as regret_sum has; its values are stated by RegretMatchingCases and RegretMatchingIsDistribution |
| StrategyVectors.AverageStrategy | kuhn.py:35-41 | the average strategy has one entry per action, as many as strategy_sum has; its values are stated by AverageStrategyIsDistribution |
| StrategyVectors.AddRegrets | kuhn.py:111-113 | the updated regret vector keeps one entry per action; RegretIncrementsBalance states the increment of each entry |
| StrategyVectors.DotPrefix | kuhn.py:106-109 | one more pass of the loop adds strategy[a]·util[a] to the node_util accumulated so far |
| StrategyVectors.Dot2 | kuhn.py:104-109 | node_util accumulated from 0 over the two actions is strategy[0]·util[0] + strategy[1]·util[1] |
| StrategyVectors.SumAdd | kuhn.py:126-127 | adding one vector into another entry by entry adds their totals |
| InfosetNode.Node.constructor | kuhn.py:5-12 | a new node has fresh, distinct, all-zero regret, strategy and strategy-sum arrays of num_actions entries, and both counters at zero |
| InfosetNode.Node.GetStrategy | kuhn.py:14-29 | the cached strategy array becomes the regret-matching strategy of regret_sum; the array returned is that same field, not a copy; regret_sum, strategy_sum and the counters are unchanged |
| InfosetNode.Node.GetAverageStrategy | kuhn.py:31-43 | returns a newly allocated array equal to the normalised strategy sums; the node is not modified |
| InfosetNode.Node.AccumulateRegrets | kuhn.py:111-113 | every regret grows by its action's utility minus the node utility; the other fields are unchanged |
| InfosetNode.Node.AccumulateStrategy | kuhn.py:126-127 | every strategy sum grows by the cached strategy's entry; the other fields are unchanged |
| KuhnGame.TerminalPayoff | kuhn.py:85-94 | a payoff is returned exactly when the history is terminal, that is two or more actions not ending in check-then-bet |
| KuhnGame.FoldPayoff | kuhn.py:86-87 | after bet then fold, the player who folded gets -1 and the other player +1, whatever the pot and cards |
| KuhnGame.ShowdownPayoff | kuhn.py:88-94 | at a showdown between different cards, the holder of the higher card gets +pot/2 and the other player -pot/2 |
| KuhnGame.ShowdownSignTable | kuhn.py:91-94 | the showdown sign is + exactly when "the acting player's card is strictly higher" agrees with "the acting player is the traverser"; ties count as a loss for the acting player |
| KuhnGame.TerminalZeroSum | kuhn.py:85-94 | at every terminal history the payoffs for traversing players 0 and 1 are negatives of each other |
| KuhnGame.TerminalHistories | kuhn.py:85-90 | in a game that has not ended earlier, a history is terminal exactly when it is check-check, bet-fold, bet-call, check-bet-fold or check-bet-call; no game has more than three actions |
| KuhnGame.DealNeedsTwoCards | kuhn.py:67 | a deal of two distinct cards drawn from the deck exists only when the deck has at least two cards, and a deal has at least two cards |
| KuhnGame.RemainingDecreases | kuhn.py:85-90 | appending any action to a non-terminal history strictly lowers the bound on the actions left, so the recursion terminates |
| Mccfr.KeyAtHidesOpponentCard | kuhn.py:96 | two deals reach the same information set exactly when the histories are equal and the acting player holds the same card; the other player's card does not enter the key |
| Mccfr.PreparedNode | kuhn.py:96-119 | after the node lookup at 96-98 and the get_strategy call at 105 or 119, the node exists and no other entry has changed; a node that existed keeps its regrets, strategy sums and counters; a new node has zero accumulators and the strategy (1/2, 1/2); either way the cached strategy is the regret-matching strategy of the node's regrets and is a probability vector |
| Mccfr.Traverse | kuhn.py:80-128 | the reference traversal: the store's key set only grows and every node keeps two actions |
| Mccfr.DecisionStep | kuhn.py:96-102 | creating or refreshing the acting player's node and dispatching never removes a key |
| Mccfr.Expand | kuhn.py:106-108 | after n actions of the traversing player's loop there are n child utilities, and no key is removed |
| Mccfr.TraverserStep | kuhn.py:102-116 | the traversing player's node step never removes a key |
| Mccfr.OpponentStep | kuhn.py:118-128 | the other player's node step never removes a key |
| Mccfr.TraverseFrame | kuhn.py:96-98 | a traversal from h changes no node and creates no key outside the subtree of h: the nodes outside the subtree, the parent's included, are left as they were |
| Mccfr.ChildKeepsNode | kuhn.py:105-109 | the traversal of a child leaves the parent's node, and so its cached strategy, exactly as get_strategy left it |
| Mccfr.ExpandKeepsNode | kuhn.py:106-109 | the same for every child traversal of the traversing player's loop |
| Mccfr.TraverseNewKeys | kuhn.py:96-98 | every node a traversal from h creates belongs to an extension of h shorter than \|h\| + Remaining(h) |
| Mccfr.TraverseDepthFromRoot | kuhn.py:85-90 | from the empty history every node created has a history of at most two actions |
| Mccfr.ExpandTwo | kuhn.py:106-108 | the two children are traversed in action order with pots pot and pot + 1, the second on the store and draws the first left; the running value is the strategy-weighted sum of their utilities |
| Mccfr.TraverserStepValue | kuhn.py:106-116 | the traversing player's node returns strategy[0]·util[0] + strategy[1]·util[1] over the two children, and the draw counter the second child left |
| Mccfr.TraverserStepAccounting | kuhn.py:111-115 | each regret grows by util[a] - node_util, visited_count by 1 and util_sum by node_util; strategy sums and the cached strategy are untouched and every other node is as the children left it |
| Mccfr.Visited | kuhn.py:111-115 | recording a visit keeps the number of regrets and leaves the cached strategy and the strategy sums as they were; TraverserStepAccounting states the increments |
| Mccfr.RegretIncrementsBalance | kuhn.py:109-113 | the regret increments weighted by the strategy that produced node_util add up to 0 |
| Mccfr.OpponentStepUpdate | kuhn.py:119-128 | exactly one child is traversed: action 0 exactly when the draw is below strategy[0], pot + 1 only for action 1, one draw used; its utility is returned unweighted; every strategy sum grows by its strategy entry, and regrets, counters and cached strategy are unchanged |
| Mccfr.SampledInterval | kuhn.py:120-124 | for a draw in [0, 1) and a probability vector, action 1 is taken exactly when the draw lies in [strategy[0], strategy[0] + strategy[1]); an action of probability 0 is never taken |
| Mccfr.OpponentStepSkipsOtherAction | kuhn.py:120-125 | no node in the subtree of the action not sampled changes |
| Mccfr.OpponentStrategySumGrowsByOne | kuhn.py:126-127 | the strategy sums of the other player's node grow in total by exactly 1 |
| Mccfr.TraverseKeepsSumsNonNegative | kuhn.py:126-127 | a traversal keeps every strategy sum non-negative |
| Mccfr.AverageStrategiesAreDistributions | kuhn.py:31-43 | in a store whose strategy sums are non-negative, every node's average strategy is a probability vector |
| Mccfr.Iteration | kuhn.py:73-75 | the traversals of one training iteration produce one utility per player and never remove a key |
| Mccfr.IterationDepth | kuhn.py:73-75 | every node a training iteration creates has a history of at most two actions |
| Mccfr.IterationKeepsAveragesDistributions | kuhn.py:72-75 | a training iteration keeps strategy sums non-negative, so afterwards every node's average strategy is a probability vector |
| Mccfr.Train | kuhn.py:70-75 | a training run keeps two actions at every node, never removes a key, keeps the strategy sums non-negative, and yields one total per player |
| Mccfr.TrainDepth | kuhn.py:72-75 | every node a training run creates has a history of at most two actions |
| Mccfr.TrainKeepsAveragesDistributions | kuhn.py:72-75 | after any number of iterations from non-negative strategy sums, every node's average strategy is a probability vector |
| KuhnTrainer.KuhnCfr.constructor | kuhn.py:61-68 | the trainer starts with no nodes and keeps iterations and decksize, which fix the number of rounds and the deck the deals come from |
| KuhnTrainer.KuhnCfr.CfrIterationsExternal | kuhn.py:70-75 | for a schedule of iterations rounds of deals from the deck, returns the per-player totals and draw count of the reference training run and leaves exactly its store; existing nodes are kept and new objects are fresh |
| KuhnTrainer.KuhnCfr.TrainingRound | kuhn.py:72-75 | one round of the training loop on the store the earlier rounds left, each player's value added into that player's total |
| KuhnTrainer.KuhnCfr.NodeAt | kuhn.py:96-98 | returns the node under the key; it is created with zero accumulators only when the key is absent; no other entry changes and no existing node is replaced |
| KuhnTrainer.KuhnCfr.ExternalCfr | kuhn.py:80-128 | returns the reference traversal's utility and draw count and leaves exactly its store; existing nodes are kept, not replaced, and every new object is fresh |
| KuhnTrainer.KuhnCfr.DecisionNode | kuhn.py:96-128 | the same at a non-terminal history, following the acting player's rule |
| KuhnTrainer.KuhnCfr.PrepareNode | kuhn.py:96-105 | the node ends up present; the strategy array returned is that node's own field and holds the regret-matching strategy of its regrets; the store changes only by that node's creation and strategy refresh |
| KuhnTrainer.KuhnCfr.TraverserNode | kuhn.py:102-116 | returns the node utility of the reference traversing-player step and leaves exactly its store |
| KuhnTrainer.KuhnCfr.ChildUtilities | kuhn.py:103-109 | the child utilities and store are those of the reference loop, and node_util is the strategy-weighted sum of the child utilities under the strategy array as it was before the children ran |
| KuhnTrainer.KuhnCfr.CollectChildren | kuhn.py:106-108 | both children are traversed in turn as the reference loop says, and the node's cached strategy array is unchanged afterwards |
| KuhnTrainer.KuhnCfr.NodeValue | kuhn.py:104-109 | node_util accumulated from 0 over the actions equals the strategy-weighted sum of the utilities |
| KuhnTrainer.KuhnCfr.ChildValue | kuhn.py:107-108 | one more iteration of the reference loop, with the node's cached strategy unchanged |
| KuhnTrainer.KuhnCfr.RecordVisit | kuhn.py:111-115 | only this node changes: regrets by util[a] - node_util, util_sum by node_util, visited_count by 1 |
| KuhnTrainer.KuhnCfr.OpponentNode | kuhn.py:118-128 | returns the reference other-player step's utility and draw count and leaves exactly its store, adding the cached strategy, read after the child returns, into the strategy sums |
| KuhnTrainer.KuhnCfr.TrainingIteration | kuhn.py:73-75 | players 0 and 1 traverse in turn from the empty history with pot 2, each dealt two distinct cards of the deck; the values returned and the store left are those of the reference iteration |
| KuhnTrainer.KuhnCfr.PlayerTraversal | kuhn.py:75 | one player's traversal from the empty history with pot 2, on the store the earlier traversals left |

Notes on the model:

- The source writes the information-set key as `str(card) + str(history)`.
  That string is injective in (card, history), so the key is modelled as
  that pair.
- After a bet and a fold, `acting_player` (`len(history) % 2`) is the
  player who would act next, which is the bettor. `FoldPayoff` states the
  result in terms of the player who made the last action, the folder.
- `util` and `node_util` at kuhn.py:103-109 are computed in one loop in the
  source. In the model:
  - `CollectChildren` runs the loop over the children;
  - `NodeValue` then accumulates `node_util` from 0 over the actions, in
    the same order, from the node's strategy array.
  
  `CollectChildren` proves that the children leave that array unchanged.
  So the value is the one the interleaved loop reads. It is also the value
  of the strategy array at the point where kuhn.py:109 reads it.
- `util = np.zeros(num_actions)` is modelled as a sequence extended by one
  entry per action.
- `get_strategy` runs at the start of both branches, which matches
  kuhn.py:105 and kuhn.py:119. The zero initialisations before it on the
  traversing player's side do not read the node.

## Left out

- Randomness:
  - `random.random()` (kuhn.py:120) is the parameter `draw` together with a
    counter of the draws used;
  - `random.shuffle` (kuhn.py:74) is replaced by the deals passed to
    `CfrIterationsExternal` and `TrainingIteration`;
  - the model does not say that draws are uniform.
- Arithmetic is over `real`. The model has no IEEE-754 rounding, so "sums
  to 1" holds exactly only in that idealisation.
- `pretty_print` (kuhn.py:45-57) and the report at kuhn.py:76-78 are left
  out. They are output formatting. `CfrIterationsExternal` returns the
  totals `util` from which the source prints the average game value.
- KuhnTrainer.KuhnCfr.CfrIterationsExternal requires every deal to be two
  distinct cards of the deck. So it cannot be called with a deck of fewer
  than two cards. With such a deck the source raises an `IndexError`
  instead: `cards[acting_player]` at kuhn.py:96 indexes past the end of
  `self.cards[:2]`. The same holds for `TrainingIteration`.
- The parameters `nodes_touched`, `t` and `num_bets` are left out. They
  never influence a result.
- Only two players and two actions are modelled. kuhn.py:83 and
  kuhn.py:86-90 hard-code both. `Node` itself is generic in its number of
  actions.
- Convergence to a Nash equilibrium is not modelled. It is a statistical,
  asymptotic property, not a property of one call.
