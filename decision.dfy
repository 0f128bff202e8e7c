/** Action selection: given the round's numbers, the hand strength and the
    two random draws, pick Raise, Call, Check or Fold by a fixed branch order,
    or end in the runtime error the code raises. */
module Decision {
  import opened Rounds
  import opened HandStrength
  import opened HandRecords

  datatype Action = Fold | Call | Check | Raise(amount: int)

  /** The Python exceptions a decision can end in. */
  datatype Fault =
    | TypeError          // `min` given a single int
    | ZeroDivisionError  // pot odds over an empty pot
    | AttributeError     // a decision before any round started

  datatype Outcome = Act(action: Action) | Crash(fault: Fault)

  /** `aggression_factor`: the chance of calling without favourable odds. */
  const AggressionFactor: real := 0.8

  /** `min_raise_multiplier`: the pot multiple used as a raise baseline. */
  const MinRaiseMultiplier: real := 2.5

  function Min(a: int, b: int): int { if a <= b then a else b }
  function Max(a: int, b: int): int { if a >= b then a else b }

  function KindOf(a: Action): ActionKind {
    match a
    case Fold => FoldKind
    case Call => CallKind
    case Check => CheckKind
    case Raise(_) => RaiseKind
  }

  /** Python's `int(x)`: the integer part, truncated toward zero. */
  function Truncate(x: real): (n: int)
    ensures 0.0 <= x ==> n as real <= x < n as real + 1.0
    ensures x < 0.0 ==> n as real - 1.0 < x <= n as real
  {
    if x >= 0.0 then x.Floor else -((-x).Floor)
  }

  /** The pot odds: what it costs to continue over the pot after calling. */
  function PotOdds(toCall: int, pot: int): (odds: real)
    requires pot + toCall != 0
    ensures 0 <= toCall <= pot + toCall ==> 0.0 <= odds <= 1.0
    ensures odds * (pot + toCall) as real == toCall as real
  {
    toCall as real / (pot + toCall) as real
  }

  /** The raise size the strong, preflop and postflop branches compute before
      the final line replaces it, or the early Call of the small blind, or the
      TypeError of `min` on a single int. */
  datatype Sizing = Sized(amount: int) | CallInstead | SizingFails(fault: Fault)

  function RaiseSizing(street: int, position: Position, strength: real, pot: int, maxRaise: int, draw: int): (s: Sizing)
    ensures s.SizingFails? <==> strength > StrongHand || (street != 0 && draw % 7 == 0)
    ensures s.SizingFails? ==> s.fault == TypeError
    ensures s == CallInstead <==> strength <= StrongHand && street == 0 && position == SB
    ensures s.Sized? ==> s.amount <= maxRaise
  {
    var baseline := Truncate(pot as real * MinRaiseMultiplier);
    if strength > StrongHand then SizingFails(TypeError)
    else if street == 0 then
      match position
      case BB => Sized(Min(maxRaise, pot * 3))
      case SB => CallInstead
    else if draw % 7 == 0 then SizingFails(TypeError)
    else Sized(Min(maxRaise, baseline * 6))
  }

  /** True when the fallback branch (Raise not legal) calls. */
  predicate CallsWithoutRaise(legal: set<ActionKind>, pot: int, toCall: int, strength: real, coin: real) {
    CallKind in legal && pot + toCall != 0 &&
    (strength > PotOdds(toCall, pot) || coin < AggressionFactor)
  }

  /** The action `get_action` returns, from its inputs and its two draws:
      `draw` from `randint(0, 500)` and `coin` from `random()`. */
  function Decide(street: int, position: Position, legal: set<ActionKind>, minRaise: int, maxRaise: int,
                  pot: int, toCall: int, strength: real, draw: int, coin: real): (o: Outcome)
    requires 0 <= draw <= 500
    requires 0.0 <= coin < 1.0
    // Raise legal: the final line fixes every returned amount.
    ensures o.Act? && o.action.Raise? ==> RaiseKind in legal && o.action.amount == Max(minRaise, maxRaise)
    ensures o.Act? && o.action.Raise? && minRaise <= maxRaise ==> minRaise <= o.action.amount <= maxRaise
    ensures RaiseKind in legal ==>
              (o == Act(Call) <==> strength <= StrongHand && street == 0 && position == SB)
    ensures RaiseKind in legal ==>
              (o == Crash(TypeError) <==> strength > StrongHand || (street != 0 && draw % 7 == 0))
    ensures RaiseKind in legal ==> o == Act(Call) || o == Crash(TypeError) || o == Act(Raise(Max(minRaise, maxRaise)))
    // Raise not legal: Call, then Check, then Fold.
    ensures RaiseKind !in legal ==>
              (o == Crash(ZeroDivisionError) <==> CallKind in legal && pot + toCall == 0)
    ensures RaiseKind !in legal ==>
              (o == Act(Call) <==> CallsWithoutRaise(legal, pot, toCall, strength, coin))
    ensures RaiseKind !in legal ==>
              (o == Act(Check) <==>
                 CheckKind in legal && !CallsWithoutRaise(legal, pot, toCall, strength, coin) &&
                 !(CallKind in legal && pot + toCall == 0))
    ensures RaiseKind !in legal ==>
              (o == Act(Fold) <==>
                 CheckKind !in legal && !CallsWithoutRaise(legal, pot, toCall, strength, coin) &&
                 !(CallKind in legal && pot + toCall == 0))
  {
    if RaiseKind in legal then
      match RaiseSizing(street, position, strength, pot, maxRaise, draw)
      case CallInstead => Act(Call)
      case SizingFails(f) => Crash(f)
      case Sized(_) => Act(Raise(Max(minRaise, maxRaise)))
    else if CallKind in legal && pot + toCall == 0 then Crash(ZeroDivisionError)
    else if CallKind in legal && (strength > PotOdds(toCall, pot) || coin < AggressionFactor) then Act(Call)
    else if CheckKind in legal then Act(Check)
    else Act(Fold)
  }

  /** Preflop the board is empty, so the strength is the neutral 0.5 and the
      strong-hand branch cannot fire: with Raise legal, the small blind calls
      and the big blind raises to the larger bound, whatever the oracle. */
  lemma PreflopWithRaise(position: Position, myCards: seq<Card>, deck: seq<Card>, oracle: Oracle,
                         legal: set<ActionKind>, minRaise: int, maxRaise: int, pot: int, toCall: int,
                         draw: int, coin: real)
    requires 0 <= draw <= 500 && 0.0 <= coin < 1.0
    requires RaiseKind in legal
    ensures Decide(0, position, legal, minRaise, maxRaise, pot, toCall,
                   Strength(myCards, Prefix(deck, 0), oracle), draw, coin) ==
            if position == SB then Act(Call) else Act(Raise(Max(minRaise, maxRaise)))
  {
    assert Prefix(deck, 0) == [];
  }

  /** The legality promised to the runner holds under the runner's own rules:
      the small blind may call whenever it may raise preflop, and Fold is
      legal whenever Check is not. Then every returned action is legal and
      every raise lies within the bounds. */
  lemma ActionIsLegal(street: int, position: Position, legal: set<ActionKind>, minRaise: int, maxRaise: int,
                      pot: int, toCall: int, strength: real, draw: int, coin: real)
    requires 0 <= draw <= 500 && 0.0 <= coin < 1.0
    requires street == 0 && position == SB && RaiseKind in legal ==> CallKind in legal
    requires CheckKind !in legal ==> FoldKind in legal
    requires RaiseKind in legal ==> minRaise <= maxRaise
    ensures var o := Decide(street, position, legal, minRaise, maxRaise, pot, toCall, strength, draw, coin);
            o.Act? ==> KindOf(o.action) in legal &&
                       (o.action.Raise? ==> minRaise <= o.action.amount <= maxRaise)
  {
  }
}
