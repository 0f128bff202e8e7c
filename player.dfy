/** The bot object: the opponent tally that lives for the whole match and the
    record of the current round, updated by the runner's three callbacks. */
module Bot {
  import opened Rounds
  import opened HandStrength
  import opened OpponentModel
  import opened HandRecords
  import opened Decision

  class Player {
    /** The four entries of `opponent_stats`. */
    var folds: int
    var calls: int
    var raises: int
    var totalHands: int
    /** `current_hand`; `None` until the first round starts. */
    var currentHand: Option<HandRecord>

    /** The entries of `opponent_stats` as one value. */
    function OpponentStats(): Tally
      reads this
    {
      Tally(folds, calls, raises, totalHands)
    }

    /** The tally invariant `Consistent(OpponentStats())` (see
        `ValidIsConsistent`), written out on the fields because the solver
        handles the field form far more cheaply inside this class. */
    ghost predicate Valid()
      reads this
    {
      0 <= folds && 0 <= calls && 0 <= raises && totalHands == folds + calls + raises
    }

    constructor ()
      ensures Valid()
      ensures OpponentStats() == Fresh
      ensures currentHand == None
    {
      folds, calls, raises, totalHands := 0, 0, 0, 0;
      currentHand := None;
    }

    /** Round start: the record is replaced by a fresh one for the bot's seat. */
    method HandleNewRound(rs: RoundState, active: int)
      requires Valid()
      requires IsSeat(active) && WellFormed(rs)
      modifies this
      ensures Valid()
      ensures currentHand == Some(StartRecord(rs.hands[active], active))
      ensures OpponentStats() == old(OpponentStats())
    {
      currentHand := Some(HandRecord(rs.hands[active], [], if active != 0 then BB else SB, []));
    }

    /** Round end: the tally records the opponent's delta unless the round
      ended preflop; the record is left as it is. */
    method HandleRoundOver(ts: TerminalState, active: int)
      requires Valid()
      requires IsSeat(active) && |ts.deltas| == 2
      modifies this
      ensures Valid()
      ensures OpponentStats() == RecordRound(old(OpponentStats()), ts.previousStreet, ts.deltas[1 - active])
      ensures Dominates(OpponentStats(), old(OpponentStats()))
      ensures currentHand == old(currentHand)
    {
      if ts.previousStreet > 0 {
        totalHands := totalHands + 1;
        var delta := ts.deltas[1 - active];
        if delta < 0 {
          folds := folds + 1;
        } else if delta == 0 {
          calls := calls + 1;
        } else {
          raises := raises + 1;
        }
      }
    }

    /** A decision request. Before any round has started the record does not
      exist and the request fails with nothing changed. Otherwise the record
      gets the visible board and one snapshot, and the action (or the error)
      is the one `Decide` picks from the round's numbers, the hand strength
      of the seat's hole cards on the visible board and the two draws. */
    method GetAction(rs: RoundState, active: int, oracle: Oracle, draw: int, coin: real) returns (o: Outcome)
      requires Valid()
      requires IsSeat(active) && WellFormed(rs)
      requires 0 <= draw <= 500 && 0.0 <= coin < 1.0
      modifies this
      ensures Valid()
      ensures OpponentStats() == old(OpponentStats())
      ensures old(currentHand) == None ==> o == Crash(AttributeError) && currentHand == None
      ensures old(currentHand) != None ==>
                var board := Prefix(rs.deck, rs.street);
                var myPip, oppPip := rs.pips[active], rs.pips[1 - active];
                && currentHand == Some(NoteDecision(old(currentHand).value, rs.street, board, myPip, oppPip))
                && o == Decide(rs.street, old(currentHand).value.myPosition, rs.legal, rs.minRaise, rs.maxRaise,
                               myPip + oppPip, oppPip - myPip,
                               Strength(rs.hands[active], board, oracle), draw, coin)
    {
      var street := rs.street;
      var myCards := rs.hands[active];
      var boardCards := Prefix(rs.deck, street);
      var myPip := rs.pips[active];
      var oppPip := rs.pips[1 - active];
      var pot := myPip + oppPip;
      var toCall := oppPip - myPip;

      if currentHand == None {
        return Crash(AttributeError);
      }
      var hand := currentHand.value;
      hand := hand.(boardCards := boardCards);
      hand := hand.(actionsTaken := hand.actionsTaken + [Snapshot(street, pot, toCall)]);
      currentHand := Some(hand);

      var handStrength := Strength(myCards, boardCards, oracle);
      o := Decide(street, hand.myPosition, rs.legal, rs.minRaise, rs.maxRaise, pot, toCall, handStrength, draw, coin);
    }
  }

  /** `Valid` is the tally invariant `Consistent` of `OpponentModel`. */
  lemma ValidIsConsistent(p: Player)
    ensures p.Valid() <==> Consistent(p.OpponentStats())
  {
  }

  /** Clients of the specifications above: short scenarios seen only
      through the contracts of `Player`. */
  method DecisionBeforeAnyRound(oracle: Oracle)
  {
    var p := new Player();
    var rs := RoundState(0, [["As", "Kd"], ["7c", "2h"]], [], [1, 2], {FoldKind, CallKind, RaiseKind}, 4, 400);
    var o := p.GetAction(rs, 0, oracle, 0, 0.5);
    assert o == Crash(AttributeError);
  }

  /** Seat 0 is the small blind: preflop with Raise legal it calls. */
  method SmallBlindPreflop(p: Player, oracle: Oracle)
    requires p.Valid()
    modifies p
  {
    var rs := RoundState(0, [["As", "Kd"], ["7c", "2h"]], [], [1, 2], {FoldKind, CallKind, RaiseKind}, 4, 400);
    p.HandleNewRound(rs, 0);
    var o := p.GetAction(rs, 0, oracle, 0, 0.5);
    assert o == Act(Call);
    assert p.currentHand.value.actionsTaken == [Snapshot(0, 3, 1)];
  }

  /** Seat 1 is the big blind: preflop with Raise legal it raises to the
      larger bound, whatever the earlier sizing computed; on the flop with
      only Check legal it checks. */
  method BigBlindRound(p: Player, oracle: Oracle)
    requires p.Valid()
    modifies p
  {
    var rs := RoundState(0, [["As", "Kd"], ["7c", "2h"]], [], [10, 10], {CheckKind, RaiseKind}, 20, 1000);
    p.HandleNewRound(rs, 1);
    assert p.currentHand.value.actionsTaken == [];
    var o := p.GetAction(rs, 1, oracle, 3, 0.5);
    assert o == Act(Raise(1000));
    var flop := RoundState(3, rs.hands, ["Qs", "Jd", "4c"], [0, 0], {CheckKind}, 0, 0);
    o := p.GetAction(flop, 1, oracle, 3, 0.5);
    assert o == Act(Check);
    assert p.currentHand.value.boardCards == ["Qs", "Jd", "4c"];
    assert |p.currentHand.value.actionsTaken| == 2;
  }

  /** The opponent lost 50 chips in a round that reached the flop: one more
      fold and one more hand, nothing else. */
  method FlopLossScenario(p: Player)
    requires p.Valid()
    modifies p
  {
    var before := p.OpponentStats();
    p.HandleRoundOver(TerminalState(2, [50, -50]), 0);
    assert p.OpponentStats() == before.(folds := before.folds + 1, totalHands := before.totalHands + 1);
  }

  /** A round that ended preflop is not counted, whatever its deltas. */
  method PreflopEndScenario(p: Player)
    requires p.Valid()
    modifies p
  {
    var before := p.OpponentStats();
    p.HandleRoundOver(TerminalState(0, [-3, 3]), 1);
    assert p.OpponentStats() == before;
  }
}
