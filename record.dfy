/** The per-round record `current_hand`: the bot's hole cards and position,
    the board seen so far and one snapshot per decision request. */
module HandRecords {
  import opened Rounds

  /** The position label: "BB" for a nonzero seat, "SB" for seat 0. */
  datatype Position = SB | BB

  /** One entry of `actions_taken`. */
  datatype Snapshot = Snapshot(street: int, potSize: int, continueCost: int)

  datatype HandRecord = HandRecord(
    myCards: seq<Card>,
    boardCards: seq<Card>,
    myPosition: Position,
    actionsTaken: seq<Snapshot>)

  function PositionOf(active: int): (p: Position)
    ensures p == BB <==> active != 0
    ensures p == SB <==> active == 0
  {
    if active != 0 then BB else SB
  }

  /** The record a new round starts with; nothing of an earlier record is
      an input, so nothing of it can survive. */
  function StartRecord(myCards: seq<Card>, active: int): (r: HandRecord)
    ensures r.boardCards == [] && r.actionsTaken == []
    ensures r.myCards == myCards
    ensures r.myPosition == BB <==> active != 0
  {
    HandRecord(myCards, [], PositionOf(active), [])
  }

  /** The snapshot of one decision request: the street, the chips both seats
      have put in this street and what it costs the bot to continue. */
  function SnapshotOf(street: int, myPip: int, oppPip: int): (e: Snapshot)
    ensures e.street == street
    ensures e.potSize - e.continueCost == 2 * myPip
    ensures e.potSize + e.continueCost == 2 * oppPip
  {
    Snapshot(street, myPip + oppPip, oppPip - myPip)
  }

  /** The record after one decision request: the board is replaced by the
      visible board and one snapshot is appended; nothing else changes. */
  function NoteDecision(r: HandRecord, street: int, board: seq<Card>, myPip: int, oppPip: int): (r': HandRecord)
    ensures |r'.actionsTaken| == |r.actionsTaken| + 1
    ensures r'.actionsTaken[..|r.actionsTaken|] == r.actionsTaken
    ensures r'.actionsTaken[|r.actionsTaken|] == SnapshotOf(street, myPip, oppPip)
    ensures r'.boardCards == board
    ensures r'.myCards == r.myCards && r'.myPosition == r.myPosition
  {
    r.(boardCards := board, actionsTaken := r.actionsTaken + [SnapshotOf(street, myPip, oppPip)])
  }

  /** What one decision request shows the record: street, board, both pips. */
  datatype Request = Request(street: int, board: seq<Card>, myPip: int, oppPip: int)

  /** The record after the requests `reqs`, in order. */
  function NoteAll(r: HandRecord, reqs: seq<Request>): HandRecord
  {
    if reqs == [] then r
    else
      var q := reqs[|reqs| - 1];
      NoteDecision(NoteAll(r, reqs[..|reqs| - 1]), q.street, q.board, q.myPip, q.oppPip)
  }

  /** The snapshots of `reqs`, one each, in order. */
  function SnapshotsOf(reqs: seq<Request>): (log: seq<Snapshot>)
    ensures |log| == |reqs|
  {
    seq(|reqs|, i requires 0 <= i < |reqs| => SnapshotOf(reqs[i].street, reqs[i].myPip, reqs[i].oppPip))
  }

  /** Over a round, the log grows by exactly one snapshot per request, in
      request order; the board is the one of the latest request; the hole
      cards and position never change. */
  lemma {:induction false} NoteAllLog(r: HandRecord, reqs: seq<Request>)
    ensures NoteAll(r, reqs).actionsTaken == r.actionsTaken + SnapshotsOf(reqs)
    ensures NoteAll(r, reqs).myCards == r.myCards
    ensures NoteAll(r, reqs).myPosition == r.myPosition
    ensures NoteAll(r, reqs).boardCards == if reqs == [] then r.boardCards else reqs[|reqs| - 1].board
  {
    if reqs != [] {
      var init := reqs[..|reqs| - 1];
      NoteAllLog(r, init);
      assert SnapshotsOf(reqs) == SnapshotsOf(init) + [SnapshotsOf(reqs)[|reqs| - 1]];
    }
  }

  /** A round's record holds only that round's snapshots, whatever the
      previous round left behind. */
  lemma {:induction false} RoundLogIsFresh(myCards: seq<Card>, active: int, reqs: seq<Request>)
    ensures NoteAll(StartRecord(myCards, active), reqs).actionsTaken == SnapshotsOf(reqs)
  {
    NoteAllLog(StartRecord(myCards, active), reqs);
  }
}
