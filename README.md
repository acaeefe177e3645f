# Bridge and torch: goal test and move generator

This project models the core of a small script for the bridge-and-torch
puzzle. A group of people must cross a bridge at night. They have one torch.
At most two people cross at a time, and whoever crosses carries the torch.
A pair walks at the speed of its slower member.

The model is one Dafny module, `BridgeAndTorch` (`bridge_and_torch.dfy`).

- **People.** The script's table of crossing times is a parameter
  `people: map<string, nat>`. Everyone in the puzzle is its key set (`All`).
  The script's own table is the constant `PEOPLE`. `ValidPeople` says that
  every duration is positive.
- **State.** A datatype holding the left bank, the right bank (both
  `set<string>`), the torch's bank (`Side = L | R`) and the elapsed time
  (`nat`). `Partitioned` says that everyone is on exactly one bank.
- **Goal test.** `IsGoal` is true when the right bank equals the set of
  everyone.
- **Move generator.** `GetNextStates` is a method. Like the script, it first
  lets every ordered pair of two different people on the torch's bank cross,
  then every single person of that bank. Each step appends the resulting
  state to a growing list. Python's `for` over a set becomes a `while` loop
  that picks a not-yet-visited element (`:|`). The pair phase is split across
  `CrossInPairs` (outer loop) and `PairWithEach` (inner loop).
  The script's two mirrored branches (torch on the left, torch on the right)
  are one loop nest over the torch's bank. The function `Apply` does the
  direction-specific update: the movers leave the torch's bank, join the
  other one, and the torch goes with them.
- **KeyError.** If someone on the torch's bank is missing from the table,
  the lookup of their crossing time raises `KeyError` in the script. The
  model returns `Outcome.KeyError(person)`. It proves that this happens
  exactly when the torch's bank is not a subset of the table's keys.
- **Reference definition.** `LegalStep` states one legal crossing using the
  two states alone:
  - the torch changes bank;
  - one or two people leave the torch's bank;
  - those people, and nobody else, arrive on the other bank;
  - the time grows by the slowest mover's duration.

  `StepSound` and `StepComplete` prove that the moves the generator
  enumerates are exactly these crossings.
- **Ghost output.** `GetNextStates` also returns a ghost sequence `moves`.
  It lists the move behind each state, with no move listed twice. This gives
  the result up to order: states counted with multiplicity, not a fixed
  sequence.

Crossing times and the elapsed time are `nat`: non-negative values are a
modelling choice (see "## Left out"). Python's `int` has no upper bound, so
no overflow is lost by this choice.

Three facts about the code are worth stating outright:

- **Ordered pairs.** The pair loops run over ordered pairs, so `(a,b)` and
  `(b,a)` both appear and lead to the same state. With k people on the
  torch's bank that gives k·(k−1) + k states, not k + k·(k−1)/2.
- **No search.** The script has the goal test and the move generator only;
  no search calls them.
- **Late failure.** Nothing checks the table in advance. A missing person
  makes the script raise `KeyError` only when their crossing time is looked up.

## Model

| member | source | states |
|---|---|---|
| `BridgeAndTorch.IsGoal` | bridge_and_torch.py:20-23 | the goal test: true when the right bank equals the set of everyone (the table's key set) |
| `BridgeAndTorch.Duration` | bridge_and_torch.py:40-49 | the time of a move is the crossing time of its slowest mover: at least each mover's time, and equal to one of them (`max` for a pair, the person's own time alone; lines 61 and 70 for the return trip) |
| `BridgeAndTorch.Apply` | bridge_and_torch.py:38-50 | the state after a move: the torch goes to the other bank, the movers are removed from the torch's old bank and added to the other one, and the time grows by the move's duration (the return-trip mirror is lines 59-71) |
| `BridgeAndTorch.GoalIgnoresOtherFields` | bridge_and_torch.py:20-23 | two states with the same right bank have the same goal status; the left bank, torch and time play no part |
| `BridgeAndTorch.GoalMeansLeftEmpty` | bridge_and_torch.py:20-23 | on a state where everyone is on exactly one bank, the goal holds if and only if the left bank is empty |
| `BridgeAndTorch.StartState` | bridge_and_torch.py:5-17 | the start state (everyone left, torch left, time 0) is partitioned, and it is a goal if and only if the table is empty |
| `BridgeAndTorch.ScriptTable` | bridge_and_torch.py:2-17 | the script's table has five people with positive times; its start state is partitioned and not a goal |
| `BridgeAndTorch.MoveShape` | bridge_and_torch.py:35-37 | an enumerated move's movers come from the bank it is drawn from; a pair move has exactly two distinct movers and a solo move one |
| `BridgeAndTorch.PairOrderIrrelevant` | bridge_and_torch.py:35-42 | the ordered pairs (a,b) and (b,a) produce the same state, same time included |
| `BridgeAndTorch.OnlyMoversCross` | bridge_and_torch.py:38-50 | after a move the torch is on the other bank, the movers are on it and off the torch's old bank, and everyone else is where they were (the torch-right mirror is lines 59-71) |
| `BridgeAndTorch.StepSound` | bridge_and_torch.py:33-73 | every enumerated move from the torch's bank is a legal crossing: the torch flips, 1 or 2 people move, time grows by the slowest mover's duration (`max` for a pair) |
| `BridgeAndTorch.StepComplete` | bridge_and_torch.py:33-73 | every legal crossing is produced by some enumerated pair or solo move from the torch's bank |
| `BridgeAndTorch.StepPreservesPartition` | bridge_and_torch.py:38-48 | if the banks are disjoint and cover everyone before a legal crossing, they still are after it |
| `BridgeAndTorch.StepTakesTime` | bridge_and_torch.py:40-50 | with positive crossing times every legal crossing strictly increases the elapsed time |
| `BridgeAndTorch.EnumerationIsExact` | bridge_and_torch.py:33-73 | a duplicate-free list that covers every move from the torch's bank holds exactly the states one legal crossing away |
| `BridgeAndTorch.PairWithEach` | bridge_and_torch.py:36-43 | for a fixed person a, appends Pair(a,b) for every other b on the torch's bank (k−1 new moves, none twice), or KeyError for a missing person |
| `BridgeAndTorch.CrossInPairs` | bridge_and_torch.py:35-43 | lists every ordered pair of distinct torch-side people exactly once (k·(k−1) moves), each with its resulting state, or KeyError naming a torch-side person missing from the table |
| `BridgeAndTorch.GetNextStates` | bridge_and_torch.py:25-76 | KeyError if and only if someone on the torch's bank is missing from the table; otherwise every pair and solo move exactly once, k·(k−1)+k states (none when k is 0), all with the torch flipped, exactly the legal crossings; partition kept; time strictly grows for positive durations |
| `BridgeAndTorch.ScriptFirstMoves` | bridge_and_torch.py:79-80 | the script's call on its start state yields 25 states, each with the torch on the right, partitioned, later than time 0 and with at most two people on the right bank |

## Left out

- The `print` calls inside the generator (bridge_and_torch.py:30-31, 43, 52, 64, 73, 75) and the printing in the driver loop (bridge_and_torch.py:79-80). They are console output only; `ScriptFirstMoves` models the call, not its printing.
- The order of the returned list. Python's set iteration order is not part of the script's behaviour. The model picks elements in an unspecified order and states its result up to order, through the ghost `moves` list.
- The breadth-first and uniform-cost searches. They are not in this script, so they are not part of this model.
- Negative crossing times. The script's `int` durations could be negative, which would make the elapsed time shrink; the model's durations and times are `nat`, so such a table cannot be stated.
- The global variables of the script's initial state (bridge_and_torch.py:8-17). They appear only as `Start(PEOPLE)`.
