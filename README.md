# Wumpus grid world — a Dafny model

This project models the transition system of the Wumpus grid world in
`wumpus.py`. That file defines a finite Markov decision process on a
`width × height` grid:

- A state is a position and two flags, `(x, y, has_gold, has_immunity)`.
- The state space is the Cartesian product of the two coordinate ranges and the two flags.
- The actions are `UP`, `DOWN`, `LEFT`, `RIGHT` and `PICK_UP`.
- Five registries map cells to payoffs: pit, gold, immune, goal and wumpus.

A movement action is perturbed: the agent goes in the intended direction or in one of its two perpendiculars. The new position is clamped to the grid. Reward and termination are then judged on the new cell, in a fixed priority:

1. Carrying gold onto a goal ends the episode with the goal's payoff.
2. Otherwise, lacking immunity on a wumpus cell ends it with the wumpus's payoff.
3. Otherwise the step costs `cost`.

`PICK_UP` collects the gold on the current cell if there is any, otherwise the immunity token.

The random draw is an explicit parameter: `Draw` is an index 0..2 into the code's list of three directions. Each transition is therefore a total function of (world, state, action, draw). The code keeps the list in its own order: `DOWN` gives `[DOWN, RIGHT, LEFT]` and `RIGHT` gives `[RIGHT, DOWN, UP]`. Index 0 is always the intended direction. Only the support of the distribution is modelled.

Files:

- `wumpus.dfy`, module `WumpusWorld`: the data model and every operation, each with its contract.
- `enumeration.dfy`, module `StateEnumeration`: the size, exact membership and order of `states`.
- `transitions.dfy`, module `TransitionProperties`: lemmas on movement, reward priority, pick-up and episodes. It also holds the 3 × 3 example world: goal (2, 2) → 10, wumpus (1, 1) → −10, step cost 1.
- `findings.dfy`, module `Findings`: two defects of the code, each modelled as written beside its counterexample.

Where the code cannot run as written, the model follows what the code evidently means:

- Line 88 of `wumpus.py` lacks a colon, so the module does not parse.
- `gold_at` and `immunity_at` are called at `wumpus.py:81` but never defined. The model uses the definition in the commented-out earlier version (`wumpus.py:183-188`): the cell is registered and the flag is not yet set.
- `pick_up` reads an undefined `new_state`, looks up a registry called `'immunity'` (the registry is `'immune'`), and returns nothing (`wumpus.py:125-129`). The model follows the earlier version (`wumpus.py:205-208`): take gold first, otherwise immunity, and never change the position. `PICK_UP` pays 0 and never ends the episode; the active code defines no pick-up reward.
- `move` hands `np.random.choice` a list of three length-2 arrays (`wumpus.py:111`). `np.random.choice` accepts only one-dimensional input, so this call fails. The model draws one of the three directions by index.
- `_clip` and `move` are covered under "## Findings".

`act` does not check that `PICK_UP` is offered. The only input it rejects is a value outside the `Actions` enumeration (`wumpus.py:91`). A `PICK_UP` with nothing to collect leaves the state unchanged, as in the earlier version. `PickUpEffectiveIffOffered` proves that `PICK_UP` changes the state exactly when `actions_at` offers it. The source raises a bare `Exception` for the rejected value; the name `InvalidAction` is the model's own.

## Model

| member | source | states |
|---|---|---|
| `WumpusWorld.NewWorld` | wumpus.py:50-60 | A new world has the given width, height and cost, and every registry is empty |
| `WumpusWorld.AllActions` | wumpus.py:75-77 | `actions` lists all five members of the enumeration |
| `WumpusWorld.Vector` | wumpus.py:26-29 | Each direction's vector is a unit step along exactly one axis |
| `WumpusWorld.Alternatives` | wumpus.py:102-109 | Each movement action has exactly three candidate directions, all movements, and the first is the intended one |
| `TransitionProperties.AlternativesAreIntendedOrPerpendicular` | wumpus.py:102-109 | A direction is a candidate exactly when it is the intended one or perpendicular to it; the opposite direction never is |
| `WumpusWorld.Realised` | wumpus.py:100-111 | The drawn direction is one of the candidates, and draw 0 gives the intended direction |
| `TransitionProperties.RealisedCoversAlternatives` | wumpus.py:100-111 | A direction is the outcome of some draw exactly when it is a candidate, so both perpendiculars can actually occur |
| `WumpusWorld.Clip` | wumpus.py:44-46 | One axis is clamped to the nearest value in [0, hi]: unchanged inside, 0 below, hi above |
| `WumpusWorld.ClipCell` | wumpus.py:44-46 | A clamped cell lies on the grid, and a cell already on the grid is unchanged |
| `WumpusWorld.World.Register` | wumpus.py:93-97 | Registering, as the `add_*` helpers at wumpus.py:181-198 do: after a payoff is stored for a cell under a kind, `has_at` finds the cell and `reward_at` returns that payoff. Every other (kind, cell) query answers as before |
| `TransitionProperties.ItemQueriesFollowRegistryAndFlag` | wumpus.py:183-188 | `gold_at` and `immunity_at` hold exactly while the item is registered on the cell and its flag is unset: an unregistered cell or a set flag answers false, and a registered cell with the flag unset answers true. Each ignores the other flag, and registering an item on another cell does not change the answer |
| `WumpusWorld.ActionsAt` | wumpus.py:79-83 | The four moves always come first; `PICK_UP` follows exactly when the cell holds uncollected gold or immunity |
| `WumpusWorld.Destination` | wumpus.py:111-113 | The new state keeps both flags and lies on any non-empty grid |
| `WumpusWorld.Arrive` | wumpus.py:115-122 | Gold carried onto a goal is terminal with the goal payoff; otherwise a wumpus without immunity is terminal with the wumpus payoff; otherwise the step is non-terminal and costs `-cost` |
| `WumpusWorld.Move` | wumpus.py:99-123 | Flags are copied, the position stays on the grid, and reward and termination follow the priority above, judged on the new cell |
| `WumpusWorld.PickUpItem` | wumpus.py:125-129 | The position never changes and no flag is cleared; gold is taken if present, otherwise the immunity token |
| `WumpusWorld.Act` | wumpus.py:85-91 | `PICK_UP` goes to pick-up, the four directions go to `move`, and any other value is rejected with an error carrying its text and never ignored |
| `StateEnumeration.StatesCount` | wumpus.py:70-73 | `states` has exactly width × height × 2 × 2 entries |
| `StateEnumeration.StatesExactlyTheGrid` | wumpus.py:70-73 | A state is enumerated exactly when it lies on the grid, so all four flag combinations appear at every cell |
| `StateEnumeration.StatesInProductOrder` | wumpus.py:70-73 | The enumeration follows `itertools.product` order strictly (x, then y, then `True` before `False` for each flag), so no tuple repeats |
| `TransitionProperties.MoveStepOrStay` | wumpus.py:111-113 | From a state on the grid, the agent lands on the drawn target when it is on the grid, and otherwise stays put |
| `TransitionProperties.MoveIsUnitOrNone` | wumpus.py:111-113 | A move changes at most one coordinate, by at most one |
| `TransitionProperties.MoveNeverBacktracks` | wumpus.py:102-113 | No draw moves the agent against the intended direction |
| `TransitionProperties.ImmunityMakesWumpusSafe` | wumpus.py:115-122 | With immunity, only a gold delivery ends the episode; a wumpus cell costs a normal step |
| `TransitionProperties.GoalOutranksWumpus` | wumpus.py:115-122 | On a cell that is both goal and wumpus, an agent carrying gold gets the goal payoff, with or without immunity |
| `TransitionProperties.PickUpEffectiveIffOffered` | wumpus.py:79-83 | `PICK_UP` changes the state exactly when `actions_at` offers it |
| `TransitionProperties.PickUpSettlesAfterTwo` | wumpus.py:125-129 | One cell yields at most two items: after two pick-ups nothing changes and nothing is offered |
| `TransitionProperties.OfferedActionsAccepted` | wumpus.py:79-91 | `act` accepts every action that `actions_at` offers |
| `TransitionProperties.ActKeepsGridAndFlags` | wumpus.py:85-91 | One accepted transition keeps the agent on the grid and never clears a flag |
| `TransitionProperties.RunKeepsGridAndFlags` | wumpus.py:85-91 | Over any sequence of actions and draws, the agent stays on the grid and its flags only go from false to true |
| `TransitionProperties.PlainIntendedStep` | wumpus.py:111-122 | With draw 0, a step onto a cell on the grid with no goal and no wumpus lands there and costs `-cost` |
| `TransitionProperties.PlainStepInSmallWorld` | wumpus.py:111-122 | In the 3 × 3 example, an intended `RIGHT` or `DOWN` step onto an ordinary cell costs 1 and the episode goes on |
| `TransitionProperties.GoldDeliveredToGoal` | wumpus.py:117-119 | In the 3 × 3 example, carrying gold into (2, 2) ends the episode with reward 10 |
| `TransitionProperties.WumpusEndsEpisode` | wumpus.py:120-122 | In the 3 × 3 example, entering (1, 1) without immunity ends the episode with reward −10 |
| `TransitionProperties.ImmunityBypassesWumpus` | wumpus.py:115-122 | In the 3 × 3 example, entering (1, 1) with immunity costs 1 and does not end the episode |
| `TransitionProperties.LeftEdgeIsAWall` | wumpus.py:102-113 | On any grid, `LEFT` from column 0 leaves x at 0 whatever the draw |
| `Findings.ClipAsWritten` | wumpus.py:44-46 | The clamp arithmetic as written puts both coordinates in [1, max]. On a square grid the two coordinates are equal |
| `Findings.ClipAsWrittenLeavesGrid` | wumpus.py:44-46 | As written, the clip moves the corner (0, 0) to (1, 1) and a step past the right edge to (3, 3), off the grid; the corrected clip keeps both on the grid |
| `Findings.MoveAsWritten` | wumpus.py:111-123 | As written, `move` returns only the destination state, with both flags copied |
| `Findings.MoveAsWrittenForgetsOutcome` | wumpus.py:115-123 | As written, `move`'s return value ignores the goal and wumpus registries |
| `Findings.MoveAsWrittenHidesWumpus` | wumpus.py:115-123 | As written, entering a wumpus returns the same value as entering an empty cell, while the corrected `move` reports termination and −10 |

## Findings

| source | as written | input that shows it | evidently intended | confidence | as-written member | corrected member |
|---|---|---|---|---|---|---|
| wumpus.py:44-46 | `_clip` takes both coordinates from `p[0]` and clamps them to [1, max], with max the width or height. It also passes the second value to `np.array` as its dtype, which fails, and it returns nothing. `Findings.ClipAsWritten` models the clamp arithmetic only | 3 × 3 grid: the arithmetic moves (0, 0) to (1, 1). It turns (3, 0), a step right from (2, 0), into (3, 3), which `states` does not list | clamp x to [0, width−1] and y to [0, height−1], each independently, and return the cell | high (not executed) | `Findings.ClipAsWritten`, `Findings.ClipAsWrittenLeavesGrid` | `WumpusWorld.ClipCell` |
| wumpus.py:115-123 | `move` computes `reward` and `is_terminal` but returns only `new_state` | 3 × 3 grid with a wumpus at (1, 1): `DOWN` from (1, 0) without immunity returns the same value as in a world with no wumpus | return the state, the reward and the terminal flag | high (not executed) | `Findings.MoveAsWritten`, `Findings.MoveAsWrittenHidesWumpus` | `WumpusWorld.Move` |

## Left out

- The probabilities 0.7 / 0.15 / 0.15 of `np.random.choice` are not modelled (`wumpus.py:100`, `wumpus.py:111`). Neither is the 0.8 / 0.1 / 0.1 table of the earlier version. The draw is an explicit index, so the model states which outcomes are possible, not how likely they are.
- The call `np.random.choice(alst, p=probs)` at `wumpus.py:111` fails, because `alst` is not one-dimensional. The model draws a direction by index and does not model that failure.
- `states` yields plain tuples (`wumpus.py:72-73`). `act` and `move` take and build `WumpusState` objects (`wumpus.py:32-41`, `wumpus.py:113`), which are mutable and compare by identity. The model merges both into the one value type `State`, which compares by contents. Object identity and aliasing are not modelled.
- numpy arrays are modelled as integer pairs (`Cell`, `Offset`).
- The display labels `_TXT` are cosmetic and are not modelled.
- `mdp.py` is an abstract base whose members only raise `NotImplementedError`. Dafny traits are not used here, so the interface is implicit in the functions of `WumpusWorld`.
- The commented-out earlier implementation (`p`, `ps`, `umove`, its 1-based `move`) is dead code. It is used only as evidence for pick-up and for `gold_at` / `immunity_at`.
- The pit registry is kept in `World` but has no effect, as in the code.
- The active code never fills the registries after construction. `World.Register` models the `add_*` helpers of the earlier version (`wumpus.py:181-198`); `add_immunity`'s fixed payoff of 1 is not singled out.
- Width and height are natural numbers. A negative size, for which `range` is empty, is not modelled.
- `WumpusWorld.Move` requires a movement action. In the code, `move` with `PICK_UP` fails on an unbound `alst`, and `act` never makes that call.
- `WumpusWorld.Run` is an episode driver. It stands for the external caller that repeatedly calls `act`, and is not a function of the code. A rejected symbol leaves the state unchanged, and a terminal step ends the run.
- `has_at` and `reward_at` are `World.HasAt` and `World.RewardAt`. A `reward_at` on a missing key raises in the code; here it is a precondition, which `move` meets by testing `has_at` first.
