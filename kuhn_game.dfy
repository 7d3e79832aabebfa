/** The Kuhn poker extensive form as the traversal of kuhn.py sees it:
    actions, histories, information-set keys and terminal payoffs. */
module KuhnGame {

  datatype Option<T> = None | Some(value: T)

  /** 0 = check or fold, 1 = bet or call. */
  type Action = a: nat | a < 2

  type History = seq<Action>

  /** An information set: the acting player's private card and the public
      history. kuhn.py keys its dictionary by str(card) + str(history). */
  datatype InfosetKey = InfosetKey(card: int, history: History)

  /** A deal: the first two cards of a shuffled deck 0, ..., decksize - 1,
      one per player, so two different cards below decksize. */
  predicate IsDeal(cards: seq<int>, decksize: int)
  {
    |cards| == 2 && cards[0] != cards[1] && 0 <= cards[0] < decksize && 0 <= cards[1] < decksize
  }

  /** Every deal in deals is drawn from a deck of decksize cards. */
  predicate DealsFrom(deals: seq<seq<int>>, decksize: int)
  {
    forall i :: 0 <= i < |deals| ==> IsDeal(deals[i], decksize)
  }

  /** For every training iteration, one deal per player from a deck of
      decksize cards. */
  predicate ScheduleFrom(schedule: seq<seq<seq<int>>>, decksize: int)
  {
    forall t :: 0 <= t < |schedule| ==> |schedule[t]| == 2 && DealsFrom(schedule[t], decksize)
  }

  /** Only a deck of at least two cards has a deal; with fewer, cards[:2]
      is too short and reading the second player's card fails. */
  lemma DealNeedsTwoCards(cards: seq<int>, decksize: int)
    ensures IsDeal(cards, decksize) ==> decksize >= 2
    ensures |cards| < 2 ==> !IsDeal(cards, decksize)
  {
  }

  /** acting_player: the player whose turn it is after history h. */
  function Acting(h: History): nat
  {
    |h| % 2
  }

  /** A history is terminal once it has two actions and does not end in
      check-then-bet, the only pair after which the game goes on. */
  predicate IsTerminal(h: History)
  {
    |h| >= 2 && !(h[|h| - 2] == 0 && h[|h| - 1] == 1)
  }

  /** The first two and three actions of a history, as sequence displays. */
  lemma ShortPrefixes(h: History)
    ensures |h| >= 2 ==> h[..2] == [h[0], h[1]]
    ensures |h| >= 3 ==> h[..3] == [h[0], h[1], h[2]]
  {
  }

  /** In a game that has not ended before h, h is terminal exactly when it
      is check-check, bet-fold, bet-call, check-bet-fold or check-bet-call;
      no game lasts more than three actions. */
  lemma TerminalHistories(h: History)
    requires forall j :: 0 <= j < |h| ==> !IsTerminal(h[..j])
    ensures IsTerminal(h) <==> h in {[0, 0], [1, 0], [1, 1], [0, 1, 0], [0, 1, 1]}
    ensures |h| <= 3
  {
    ShortPrefixes(h);
    assert |h| == 2 ==> h == h[..2];
    assert |h| == 3 ==> h == h[..3];
  }

  /** The terminal tests of external_cfr: the payoff to the traversing
      player, or None when the history is not terminal. */
  function TerminalPayoff(cards: seq<int>, h: History, pot: int, traverser: nat): (r: Option<real>)
    requires |cards| >= 2
    ensures r.Some? <==> IsTerminal(h)
  {
    var plays := |h|;
    var acting := plays % 2;
    var opponent := 1 - acting;
    if plays >= 2 && h[plays - 1] == 0 && h[plays - 2] == 1 then
      // bet, then fold
      Some(if acting == traverser then 1.0 else -1.0)
    else if plays >= 2 && ((h[plays - 1] == 0 && h[plays - 2] == 0) || (h[plays - 1] == 1 && h[plays - 2] == 1)) then
      // check-check or bet-call: showdown
      if cards[acting] > cards[opponent] then
        Some(if acting == traverser then pot as real / 2.0 else -(pot as real) / 2.0)
      else
        Some(if acting == traverser then -(pot as real) / 2.0 else pot as real / 2.0)
    else
      None
  }

  /** The player who made the last action of h. */
  function LastActor(h: History): nat
    requires |h| > 0
  {
    (|h| - 1) % 2
  }

  /** After a bet and a fold the folder loses one unit and the bettor wins one,
      whatever the pot and the cards. */
  lemma FoldPayoff(cards: seq<int>, h: History, pot: int, traverser: nat)
    requires |cards| >= 2 && |h| >= 2 && traverser < 2
    requires h[|h| - 2] == 1 && h[|h| - 1] == 0
    ensures TerminalPayoff(cards, h, pot, traverser) ==
            Some(if traverser == LastActor(h) then -1.0 else 1.0)
  {
  }

  /** At a showdown between different cards the holder of the higher card wins
      half the pot, whichever of the two showdown sequences led there. */
  lemma ShowdownPayoff(cards: seq<int>, h: History, pot: int, traverser: nat)
    requires |cards| >= 2 && |h| >= 2 && traverser < 2 && cards[0] != cards[1]
    requires h[|h| - 2] == h[|h| - 1]
    ensures TerminalPayoff(cards, h, pot, traverser) ==
            Some(if cards[traverser] > cards[1 - traverser] then pot as real / 2.0 else -(pot as real) / 2.0)
  {
  }

  /** The sign table of a showdown as written, ties included: the acting
      player wins only with a strictly higher card. */
  lemma ShowdownSignTable(cards: seq<int>, h: History, pot: int, traverser: nat)
    requires |cards| >= 2 && |h| >= 2
    requires h[|h| - 2] == h[|h| - 1]
    ensures var acting := Acting(h);
            var actingWins := cards[acting] > cards[1 - acting];
            TerminalPayoff(cards, h, pot, traverser) ==
              Some(if actingWins == (acting == traverser) then pot as real / 2.0 else -(pot as real) / 2.0)
  {
  }

  /** Kuhn poker is zero-sum: the two players' payoffs at a terminal history
      are negatives of each other. */
  lemma TerminalZeroSum(cards: seq<int>, h: History, pot: int)
    requires |cards| >= 2 && IsTerminal(h)
    ensures TerminalPayoff(cards, h, pot, 0).value == -TerminalPayoff(cards, h, pot, 1).value
  {
  }

  /** An upper bound on the number of further actions before the game ends. */
  function Remaining(h: History): nat
  {
    if IsTerminal(h) then 0 else if |h| == 0 then 3 else if |h| == 1 then 2 else 1
  }

  /** Every action from a non-terminal history brings the end strictly closer:
      the recursion of external_cfr terminates. */
  lemma RemainingDecreases(h: History, a: Action)
    requires !IsTerminal(h)
    ensures Remaining(h + [a]) < Remaining(h)
  {
    var c := h + [a];
    if |h| >= 2 {
      assert c[|c| - 2] == 1 && c[|c| - 1] == a;
    } else if |h| == 1 {
      assert c[|c| - 2] == h[0] && c[|c| - 1] == a;
    }
  }
}
