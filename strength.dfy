/** The hand-strength normaliser: a neutral 0.5 preflop or when the ranking
    oracle fails, otherwise the oracle's rank divided by its maximum. */
module HandStrength {
  import opened Rounds

  /** The external ranking oracle applied to hole cards followed by board
      cards: `Some(rank)` when it succeeds, `None` when building the cards or
      ranking them raises. */
  type Oracle = seq<Card> -> Option<int>

  /** The largest rank the oracle reports. */
  const MaxRank: int := 7462

  /** Above this strength the bot treats its hand as strong. */
  const StrongHand: real := 0.6

  /** The strength of `myCards` on `boardCards`. Exact rational arithmetic
      stands for the source's floating-point division. */
  function Strength(myCards: seq<Card>, boardCards: seq<Card>, oracle: Oracle): (s: real)
    ensures boardCards == [] ==> s == 0.5
    ensures boardCards != [] && oracle(myCards + boardCards).None? ==> s == 0.5
    ensures boardCards != [] && oracle(myCards + boardCards).Some? ==>
              s * MaxRank as real == oracle(myCards + boardCards).value as real
    ensures (boardCards == [] || oracle(myCards + boardCards).None? ||
             0 <= oracle(myCards + boardCards).value <= MaxRank) ==> 0.0 <= s <= 1.0
  {
    if boardCards == [] then 0.5
    else match oracle(myCards + boardCards)
      case None => 0.5
      case Some(score) => score as real / MaxRank as real
  }

  /** A hand counts as strong exactly when there is a board, the oracle
      succeeds, and its rank is above 4477 (0.6 * 7462 = 4477.2). */
  lemma StrongExactly(myCards: seq<Card>, boardCards: seq<Card>, oracle: Oracle)
    ensures Strength(myCards, boardCards, oracle) > StrongHand <==>
              boardCards != [] && oracle(myCards + boardCards).Some? &&
              oracle(myCards + boardCards).value > 4477
  {
  }
}
