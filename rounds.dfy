/** The view of the match runner's state that the bot reads. The runner itself
    (turn order, legal-action rules, raise bounds, pot bookkeeping) is external:
    these values arrive already computed. */
module Rounds {

  datatype Option<T> = None | Some(value: T)

  /** A card token such as "As" or "Td"; the bot never interprets it. */
  type Card = string

  /** The action classes that can appear in `legal_actions()`. */
  datatype ActionKind = FoldKind | CallKind | CheckKind | RaiseKind

  /** The parts of a `RoundState` the bot reads: the street, both seats' hole
      cards, the revealed deck, both seats' pips, the legal action classes and
      the pair returned by `raise_bounds()`. */
  datatype RoundState = RoundState(
    street: int,
    hands: seq<seq<Card>>,
    deck: seq<Card>,
    pips: seq<int>,
    legal: set<ActionKind>,
    minRaise: int,
    maxRaise: int)

  /** The parts of a `TerminalState` the bot reads: the street of the state
      before the end of the round and each seat's signed chip change. */
  datatype TerminalState = TerminalState(previousStreet: int, deltas: seq<int>)

  /** The runner seats the bot at index 0 or 1. */
  predicate IsSeat(active: int) {
    active == 0 || active == 1
  }

  /** Both per-seat lists hold one entry for each of the two seats. */
  predicate WellFormed(rs: RoundState) {
    |rs.hands| == 2 && |rs.pips| == 2
  }

  /** Python's `deck[:k]`: the first `k` cards, the whole deck when `k` is
      too large, and all but the last `-k` cards when `k` is negative. */
  function Prefix(deck: seq<Card>, k: int): (b: seq<Card>)
    ensures |b| <= |deck| && b == deck[..|b|]
    ensures 0 <= k <= |deck| ==> |b| == k
    ensures k >= |deck| ==> b == deck
    ensures k < 0 ==> |b| == if -k >= |deck| then 0 else |deck| + k
  {
    if k >= |deck| then deck
    else if k >= 0 then deck[..k]
    else if -k >= |deck| then []
    else deck[..|deck| + k]
  }
}
