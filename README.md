# Ultra-aggressive poker bot: decision core

This project models the `Player` bot of a heads-up poker engine. The match
runner drives the bot through three callbacks:

- at round start (once per round), the bot replaces its per-round record
  (`current_hand`) with a fresh one;
- at each decision request (zero or more per round), it logs a snapshot
  into that record, measures its hand strength and picks Raise, Call, Check
  or Fold by a fixed branch order;
- at round end (once per round), it updates a four-counter opponent tally
  (`opponent_stats`) by the sign of the opponent's chip change.

Modules, leaves first:

- `Rounds` (rounds.dfy): the part of the runner's round and terminal states
  that the bot reads, and Python's `deck[:street]` slice.
- `HandStrength` (strength.dfy): the strength normaliser. It gives 0.5
  preflop or when the ranking oracle fails, and otherwise `rank / 7462`.
- `OpponentModel` (opponent.dfy): the tally as a value, one round end as a
  function, and the invariants that hold after any sequence of round ends.
- `HandRecords` (record.dfy): the per-round record, its reset and its
  per-decision update, with the log over a whole round.
- `Decision` (decision.dfy): action selection as a pure function of the
  round's numbers, the strength and the two random draws.
- `Bot` (player.dfy): the `Player` class. Its fields are the four counters
  and the current record. Its constructor and three methods update them in
  place, and each method's postcondition ties the new state to the functions
  above. A few client methods replay the scenarios of one short match
  through these contracts alone.

The model follows the code as written, including three places where the
code does not do what its own comments and neighbouring lines suggest:

- player.py:105 and player.py:114 call `min(max_raise)` with a single int,
  beside the two-argument `min(max_raise, ...)` at player.py:108 and
  player.py:116. Python raises `TypeError` on a single int, so the
  strong-hand branch and the postflop "draw divisible by 7" branch never
  return a raise. The model returns `Crash(TypeError)` on those paths.
- The comment at player.py:118 says "Ensure raise amount is within bounds",
  but the line after it, `raise_amount = max(min_raise, max_raise)`,
  discards every size computed before it instead of clamping it. Every
  Raise the model returns carries `max(min_raise, max_raise)`.
- The comment at player.py:122 says the bot calls "if the pot odds are
  favorable", but the pot odds at player.py:124 divide by `pot + to_call`,
  twice the opponent's pip, with no guard. When that is 0 and Call is
  legal, Python raises, and the model returns `Crash(ZeroDivisionError)`.

A decision request before any round has started reads a missing attribute.
The model returns `Crash(AttributeError)` and changes nothing. A request
that crashes after the record update keeps that update, as the code does.

Inputs that stand in for code outside the bot:

- The ranking oracle `eval7` is a function parameter from the hole cards
  followed by the board to `Option<int>`. `None` stands for any exception
  raised while building or ranking the cards.
- `random.randint(0, 500)` is the parameter `draw`, with `0 <= draw <= 500`.
- `random.random()` is the parameter `coin`, with `0.0 <= coin < 1.0`.
- `aggression_factor` (0.8) and `min_raise_multiplier` (2.5) are never
  reassigned, so they are constants of `Decision`.

## Model

| member | source | states |
|---|---|---|
| `Rounds.Prefix` | player.py:80 | `deck[:street]` with Python slice semantics: the first `street` cards, the whole deck when `street` is too large, all but the last `-street` cards when it is negative; always a prefix of the deck, empty preflop |
| `HandStrength.Strength` | player.py:59-71 | exactly 0.5 when the board is empty, whatever the oracle says; 0.5 when the oracle fails on hole+board; otherwise strength × 7462 equals the oracle's rank; in [0,1] whenever the rank is in [0,7462] or no rank is used |
| `HandStrength.StrongExactly` | player.py:104 | the strong-hand test `strength > 0.6` holds exactly when there is a board, the oracle succeeds and its rank exceeds 4477 |
| `OpponentModel.Classify` | player.py:52-57 | a negative opponent delta reads as a fold, zero as a call, positive as a raise (each an if-and-only-if) |
| `OpponentModel.RecordRound` | player.py:50-57 | a round that ended at street ≤ 0 changes nothing; otherwise the total and exactly the counter its delta selects each go up by one, the other two stay; it keeps the tally consistent and never lowers a counter |
| `OpponentModel.CountedSplits` | player.py:50-57 | every counted round end is classified as exactly one of fold, call or raise |
| `OpponentModel.ReplayTallies` | player.py:44-57 | after any sequence of round ends, each counter has grown by the number of counted rounds of its kind and the total by the number of counted rounds |
| `OpponentModel.ReplayFromFresh` | player.py:26-31 | from the initial zero tally, the counters equal these counts, so `total_hands == folds + calls + raises` after any sequence of round ends |
| `OpponentModel.ReplayKeeps` | player.py:50-57 | any sequence of round ends keeps a consistent tally consistent and never decreases a counter |
| `HandRecords.PositionOf` | player.py:40 | the position is BB exactly when the seat index is nonzero, SB exactly when it is zero |
| `HandRecords.StartRecord` | player.py:37-42 | a new record has an empty board and an empty action log, the seat's hole cards and its position, and takes nothing from an earlier record |
| `HandRecords.SnapshotOf` | player.py:85-94 | a snapshot's pot minus continue cost is twice the bot's pip, and its pot plus continue cost is twice the opponent's pip |
| `HandRecords.NoteDecision` | player.py:88-94 | one request appends exactly one snapshot and keeps the earlier log as a prefix; the board becomes the visible board; hole cards and position are unchanged |
| `HandRecords.NoteAllLog` | player.py:88-94 | over any sequence of requests, the log grows by exactly their snapshots, in order; the board is that of the latest request; hole cards and position never change |
| `HandRecords.RoundLogIsFresh` | player.py:37-42 | within a round, the log holds exactly that round's snapshots, whatever the previous round left |
| `Decision.Truncate` | player.py:102 | Python's `int()`: the integer part toward zero, within one of its argument on the correct side |
| `Decision.PotOdds` | player.py:124 | pot odds times `pot + to_call` equal `to_call`; they lie in [0,1] when `0 <= to_call <= pot + to_call` |
| `Decision.RaiseSizing` | player.py:102-117 | raise sizing fails with TypeError exactly when the hand is strong or the postflop draw is divisible by 7; it calls instead exactly for a non-strong preflop SB; any size it computes is at most `max_raise` |
| `Decision.Decide` | player.py:99-133 | with Raise legal: Call exactly for a non-strong preflop SB, TypeError exactly on the strong or draw-divisible-by-7 paths, otherwise `Raise(max(min_raise, max_raise))`, within bounds when `min_raise <= max_raise`; without Raise: ZeroDivisionError exactly when Call is legal and `pot + to_call == 0`, then Call, Check and Fold in that order, each as an if-and-only-if |
| `Decision.PreflopWithRaise` | player.py:104-110 | preflop with Raise legal, whatever the oracle: SB returns Call and BB returns `Raise(max(min_raise, max_raise))` |
| `Decision.ActionIsLegal` | player.py:100-133 | if the runner lets the preflop SB call whenever it may raise, makes Fold legal whenever Check is not, and gives `min_raise <= max_raise`, then every returned action is in the legal set and every raise is within bounds |
| `Bot.Player.constructor` | player.py:18-31 | all four counters start at 0 and no round record exists yet |
| `Bot.Player.HandleNewRound` | player.py:33-42 | the record becomes the fresh record for the seat's hand and position; the tally is unchanged |
| `Bot.Player.HandleRoundOver` | player.py:44-57 | the tally becomes `RecordRound` of the old tally, the previous street and the opponent's delta `deltas[1 - active]`; it stays consistent, no counter decreases, and the record is unchanged |
| `Bot.Player.GetAction` | player.py:73-97 | with no record yet: AttributeError and nothing changes; otherwise the record gets `deck[:street]` and one snapshot, the tally is unchanged, and the outcome is `Decide` on the round's numbers, the recorded position and the strength of the seat's hole cards on that board |

## Left out

- The runner, the skeleton imports and process startup (player.py:4-8, player.py:135-136) are framework and I/O plumbing. How the runner reacts to a crashed decision is not modelled.
- The internals of `eval7.Card` and `eval7.evaluate` are a foreign library. They appear only as the oracle's possible rank or failure.
- The random number generators are not modelled. Their draws are parameters. `Decide` takes both draws on every call, while the code draws `randint` only on the postflop non-strong path and `random()` only when the odds are unfavourable. How many values a call consumes from the generator is not modelled.
- IEEE floating point is not modelled. `score / 7462`, the pot odds and `int(pot * 2.5)` use exact rationals. Where a float rounding could decide a comparison, such as a strength exactly equal to the pot odds, the model follows the exact value.
- `bluff_frequency`, `hand_history` and both stacks are set or read but never used in a decision, so they are not modelled.
- The legality of the preflop SB Call (player.py:110) and of the final Fold (player.py:133) depends on the runner's rules. The code does not check it. `Decision.ActionIsLegal` takes those rules as preconditions.
- Seat indices are 0 or 1, as the runner passes them. Python's negative indexing of `hands`, `pips` and `deltas` is not modelled.
