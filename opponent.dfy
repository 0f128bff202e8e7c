/** The opponent tally: four counters updated once per finished round, by the
    sign of the opponent's chip change. */
module OpponentModel {

  /** The counters of `opponent_stats`. */
  datatype Tally = Tally(folds: int, calls: int, raises: int, totalHands: int)

  /** What a chip change is taken to say about the opponent. */
  datatype Move = Folded | Called | Raised

  /** The tally a new player starts with. */
  const Fresh: Tally := Tally(0, 0, 0, 0)

  /** No counter is negative and the three kinds add up to the total. */
  predicate Consistent(t: Tally) {
    0 <= t.folds && 0 <= t.calls && 0 <= t.raises &&
    t.totalHands == t.folds + t.calls + t.raises
  }

  /** The counter kept for `m`. */
  function Count(t: Tally, m: Move): int {
    match m
    case Folded => t.folds
    case Called => t.calls
    case Raised => t.raises
  }

  /** No counter of `later` is below the same counter of `earlier`. */
  predicate Dominates(later: Tally, earlier: Tally) {
    later.folds >= earlier.folds && later.calls >= earlier.calls &&
    later.raises >= earlier.raises && later.totalHands >= earlier.totalHands
  }

  /** A loss reads as a fold, no change as a call, a gain as a raise. */
  function Classify(delta: int): (m: Move)
    ensures m == Folded <==> delta < 0
    ensures m == Called <==> delta == 0
    ensures m == Raised <==> delta > 0
  {
    if delta < 0 then Folded
    else if delta == 0 then Called
    else Raised
  }

  /** One round end: rounds that ended preflop are ignored; any other adds one
      to the total and one to the counter its opponent delta selects. */
  function RecordRound(t: Tally, street: int, delta: int): (t': Tally)
    ensures street <= 0 ==> t' == t
    ensures street > 0 ==> t'.totalHands == t.totalHands + 1
    ensures street > 0 ==> Count(t', Classify(delta)) == Count(t, Classify(delta)) + 1
    ensures street > 0 ==> forall m :: m != Classify(delta) ==> Count(t', m) == Count(t, m)
    ensures Consistent(t) ==> Consistent(t')
    ensures Dominates(t', t)
  {
    if street > 0 then
      var t1 := t.(totalHands := t.totalHands + 1);
      if delta < 0 then t1.(folds := t1.folds + 1)
      else if delta == 0 then t1.(calls := t1.calls + 1)
      else t1.(raises := t1.raises + 1)
    else
      t
  }

  /** What `handle_round_over` is given about a finished round: the street
      before it ended and the opponent's chip change. */
  datatype RoundEnd = RoundEnd(street: int, opponentDelta: int)

  /** The tally after the round ends in `ends`, in order. */
  function Replay(t: Tally, ends: seq<RoundEnd>): Tally
  {
    if ends == [] then t
    else
      var last := ends[|ends| - 1];
      RecordRound(Replay(t, ends[..|ends| - 1]), last.street, last.opponentDelta)
  }

  /** How many round ends in `ends` are counted at all. */
  function Counted(ends: seq<RoundEnd>): nat
  {
    if ends == [] then 0
    else Counted(ends[..|ends| - 1]) + (if ends[|ends| - 1].street > 0 then 1 else 0)
  }

  /** How many counted round ends in `ends` read as `m`. */
  function Readings(ends: seq<RoundEnd>, m: Move): nat
  {
    if ends == [] then 0
    else
      var last := ends[|ends| - 1];
      Readings(ends[..|ends| - 1], m) +
        (if last.street > 0 && Classify(last.opponentDelta) == m then 1 else 0)
  }

  /** Every counted round end reads as exactly one move. */
  lemma {:induction false} CountedSplits(ends: seq<RoundEnd>)
    ensures Counted(ends) == Readings(ends, Folded) + Readings(ends, Called) + Readings(ends, Raised)
  {
    if ends != [] {
      CountedSplits(ends[..|ends| - 1]);
    }
  }

  /** After any sequence of round ends, each counter has grown by exactly the
      number of counted rounds of its kind, and the total by the number of
      counted rounds. */
  lemma {:induction false} ReplayTallies(t: Tally, ends: seq<RoundEnd>)
    ensures forall m :: Count(Replay(t, ends), m) == Count(t, m) + Readings(ends, m)
    ensures Replay(t, ends).totalHands == t.totalHands + Counted(ends)
  {
    if ends != [] {
      ReplayTallies(t, ends[..|ends| - 1]);
    }
  }

  /** Starting from the fresh tally, the counters are exactly the counts of
      the rounds they classify, so the total is their sum at every point. */
  lemma {:induction false} ReplayFromFresh(ends: seq<RoundEnd>)
    ensures Replay(Fresh, ends) ==
              Tally(Readings(ends, Folded), Readings(ends, Called), Readings(ends, Raised), Counted(ends))
    ensures Consistent(Replay(Fresh, ends))
  {
    ReplayTallies(Fresh, ends);
    CountedSplits(ends);
  }

  /** Any sequence of round ends keeps a consistent tally consistent and
      never decreases a counter. */
  lemma {:induction false} ReplayKeeps(t: Tally, ends: seq<RoundEnd>)
    requires Consistent(t)
    ensures Consistent(Replay(t, ends))
    ensures Dominates(Replay(t, ends), t)
  {
    if ends != [] {
      ReplayKeeps(t, ends[..|ends| - 1]);
    }
  }
}
