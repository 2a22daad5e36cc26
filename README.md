# AlgoStrategy turn logic, modelled in Dafny

This project models the decision layer of a Terminal starter agent: the
Python class `AlgoStrategy`. It does not model the game engine. Each turn
the agent does four things:

- it lays a fixed baseline of encryptors and destructors;
- it adds destructors near every location where the opponent has breached
  its edge, and then a triangular funnel on the side the breaches favour;
- it may send scramblers from two "widened" edge spawns;
- it may fire a "ping cannon" from whichever of those spawns has the path
  that takes the least estimated damage.

The cannon is gated by a ping threshold. The threshold starts at 6 and
grows by half whenever the previous turn's cannon left the enemy's health
equal to the health value the agent has stored. Between turns, the
action-frame handler records every breach made by an opponent unit.

The engine's queries become fields of a `Board` datatype, all of them total
functions: whether a cell holds a stationary unit, how many enemy
destructors can hit a cell, the path to the edge from a cell, and the units
on a cell. A `Snapshot` adds both players' bits and health. A turn's
`attempt_spawn` calls become a sequence of `Request(unit, cell, count)`
values, in call order. Python floats are modelled as exact reals, and
`int()` as truncation toward zero (`GameTypes.Trunc`).

Modules:

- `GameTypes`: cells, unit kinds, requests, the board and the `Trunc`/`Spawns`/`OfUnit` helpers.
- `Layouts`: every hard-coded coordinate list.
- `ThreatModel`: `least_damage_spawn_location`.
- `SpawnSelector`: `get_nice_spawn` and `filter_blocked_locations`.
- `BreachLedger`: the breach filter of `on_action_frame`.
- `SideBias`: `pick_defense_side` and `pick_attack_side`.
- `DefenseBuilder`: `build_defences`, `build_reactive_defense` and `build_triangle_funnel`.
- `ThresholdController`: the threshold escalation.
- `Strategy`: the class `AlgoStrategy` with its fields; `starter_strategy`, `stall_with_scramblers` and `ping_cannon` as methods; and the spec functions `TurnPlan`, `DefensePlan` and `MobilePlan`, which give the requests a turn makes as a function of the state before the turn.

Behaviour that the code shows, and that a quick reading of the strategy could get wrong:

- Both scrambler gates of `starter_strategy` test the opponent's bits, `_player_resources[1]` (lines 83 and 95), not the agent's own bits. The model follows the code.
- `last_enemy_health` is set to 40 in `__init__` and never updated. Escalation therefore compares the enemy's health with 40, not with the previous turn's health.
  - With an enemy at health 10 on two turns in a row, the threshold stays 6 rather than becoming 9 (`ThresholdController.EscalationExample`, third clause).
  - Once the enemy's health has left 40, the threshold is frozen for good (`ThresholdController.ThresholdFrozenOnceEnemyHealthMoves`).
- `get_nice_spawn` reverses each probe list, so it walks from the probe nearest the anchor outward. It returns the last probe of the contiguous occupied run, or the anchor when the first probe is free.
- The reactive destructor goes one row below the important point (`[x, y - 1]`), and each of the two placements is gated by the exclusion zone on its own.
- Reactive destructors are recomputed every turn from the whole breach history, duplicates included.

## Model

| member | source | states |
|---|---|---|
| GameTypes.Trunc | python-algo/algo_strategy.py:87 | `int()` on a float truncates toward zero: for r >= 0 the result is the whole part, and for r < 0 it is the negated whole part of -r |
| ThresholdController.Escalate | python-algo/algo_strategy.py:87 | `int(t * 1.5)` for a non-negative threshold is exactly `(3 * t) / 2` |
| ThresholdController.NextThreshold | python-algo/algo_strategy.py:86-87 | escalates exactly when the cannon fired last turn and the enemy's health equals the stored value, and then to `(3 * t) / 2`; otherwise the threshold is unchanged; it never decreases; above 1 an escalation strictly increases it |
| ThresholdController.ThresholdAfter | python-algo/algo_strategy.py:86-93 | the threshold over a run of turns: if the cannon did not fire before the run and own bits stay below the threshold throughout, the threshold never moves |
| ThresholdController.ThresholdNeverDecreases | python-algo/algo_strategy.py:86-93 | over any sequence of turns, the threshold never drops below its starting value |
| ThresholdController.ThresholdFrozenOnceEnemyHealthMoves | python-algo/algo_strategy.py:29 | the stored enemy health is never refreshed, so once every turn shows another enemy health the threshold stays constant however often the cannon fires |
| ThresholdController.EscalationExample | python-algo/algo_strategy.py:27-29 | from the initial state, 6 escalates to 9 and then to 13; at enemy health 10 against the stored 40 it stays 6 |
| ThreatModel.PathDamageIsDamageTimesAttackers | python-algo/algo_strategy.py:301-305 | a path's score is the destructor damage times the number of attackers summed over every cell of the path, and 0 for an empty path |
| ThreatModel.PathDamageAppend | python-algo/algo_strategy.py:302-304 | the score is additive over path segments, so every cell counts and there is no early exit |
| ThreatModel.FirstMinIndex | python-algo/algo_strategy.py:308 | `d.index(min(d))`: an index of a least score, before which every score is strictly larger |
| ThreatModel.FirstMinIndexUnique | python-algo/algo_strategy.py:308 | any index with those two properties is that index |
| ThreatModel.DamageAlong | python-algo/algo_strategy.py:300-304 | the inner loop computes the path's score |
| ThreatModel.IndexOfMin | python-algo/algo_strategy.py:308 | finding the minimum and then its first position yields the first least-score index |
| ThreatModel.LeastDamageSpawnLocation | python-algo/algo_strategy.py:291-308 | fails exactly on an empty candidate list (`min([])` raises); otherwise it returns the candidate whose path scores least, the first such candidate on a tie |
| SpawnSelector.OccupiedRunIsFrontRun | python-algo/algo_strategy.py:190-194 | the accepted probes are occupied, and the loop stops at the first free probe |
| SpawnSelector.RunIsUnique | python-algo/algo_strategy.py:190-194 | the accepted run is determined by those two properties |
| SpawnSelector.ProbeOutward | python-algo/algo_strategy.py:188-194 | the probe loop returns the end of the occupied run, or the anchor when the first probe is free |
| SpawnSelector.NiceSpawnIsEndOfRun | python-algo/algo_strategy.py:188-200 | the result is probe k iff probes 0..k are occupied and probe k+1 is free or absent; it is the anchor iff the first probe is free |
| SpawnSelector.GetNiceSpawn | python-algo/algo_strategy.py:186-200 | returns `(left, right)`, each its anchor or one of its own probes, and the anchor when the nearest probe is free |
| SpawnSelector.Unblocked | python-algo/algo_strategy.py:319-324 | the result holds exactly the unoccupied locations, no more entries than the input, and the whole list when no location is occupied |
| SpawnSelector.UnblockedSingle | python-algo/algo_strategy.py:322-323 | a single location is kept exactly when it holds no stationary unit |
| SpawnSelector.UnblockedAppend | python-algo/algo_strategy.py:321-323 | filtering commutes with concatenation; with the single-location case this fixes order and multiplicity: the free locations, in input order, each as often as it appears |
| SpawnSelector.FilterBlockedLocations | python-algo/algo_strategy.py:319-324 | the loop that appends each free location yields `Unblocked` of its input |
| BreachLedger.OpponentBreaches | python-algo/algo_strategy.py:337-344 | the recorded locations are no more than the breaches, and each one is the location of a breach whose owner flag is not 1 |
| BreachLedger.OpponentBreachesMembers | python-algo/algo_strategy.py:337-344 | a location is recorded iff some breach at it has an owner flag other than 1; never more entries than breaches |
| BreachLedger.AllOpponentBreachesRecorded | python-algo/algo_strategy.py:337-344 | when no breach is the agent's own, every breach location is recorded, one entry each, in event order |
| BreachLedger.OwnBreachesIgnored | python-algo/algo_strategy.py:339-342 | breaches with owner flag 1 are never recorded |
| BreachLedger.OpponentBreachesAppend | python-algo/algo_strategy.py:337-344 | processing two frames in turn records the same as processing their breaches together |
| Strategy.AlgoStrategy.OnActionFrame | python-algo/algo_strategy.py:337-345 | the ledger becomes the old ledger followed by the opponent's breach locations; the old entries are unchanged |
| Strategy.AlgoStrategy.constructor | python-algo/algo_strategy.py:23-29 | threshold 6, cannon flag false, stored enemy health 40 (lines 27-29); the ledger starts empty, which in the source happens at line 46 in `on_game_start` |
| Strategy.AlgoStrategy.OnGameStart | python-algo/algo_strategy.py:46 | the breach ledger is empty |
| SideBias.EveryBreachCountedOnce | python-algo/algo_strategy.py:205-209 | the tests `x <= 13` and `x >= 14` count every breach on exactly one side |
| Strategy.AlgoStrategy.PickDefenseSide | python-algo/algo_strategy.py:202-215 | 'left' iff more breaches are on the left, 'right' iff more are on the right, 'center' iff the counts are equal (an empty history included) |
| SideBias.RegionCount | python-algo/algo_strategy.py:226-242 | a region loop computes the sum of `damage_i * range` over every unit on every cell of the region |
| SideBias.RegionWeightAppend | python-algo/algo_strategy.py:227-230 | the region weight is additive over parts of the coordinate list |
| SideBias.RegionWeightNonNegative | python-algo/algo_strategy.py:226-230 | units with no negative stats give a region a weight of at least 0 |
| SideBias.Min3 | python-algo/algo_strategy.py:244 | `min(a, b, c)` is at most each argument and equals one of them |
| SideBias.PickAttackSide | python-algo/algo_strategy.py:217-251 | "LEFT" iff the left region is no heavier than the other two; "RIGHT" iff left is heavier and right is no heavier than mid; "MID" iff mid is strictly lighter than both |
| DefenseBuilder.BuildDefences | python-algo/algo_strategy.py:127-142 | a single encryptor on each of the 12 baseline encryptor cells, in list order, followed by a single destructor on each of the 14 baseline destructor cells, in list order |
| DefenseBuilder.FunnelPlan | python-algo/algo_strategy.py:144-158 | for a side starting with 'r', single encryptors on the right funnel's cells and then single destructors on its destructor cells, each in list order; the same with the left layout for a side starting with 'l'; nothing for any other side |
| DefenseBuilder.SqrtBelowFour | python-algo/algo_strategy.py:167-168 | a non-negative root of an integer is below 4 exactly when the integer is below 16, so the squared comparison is exact |
| DefenseBuilder.WithinReachBox | python-algo/algo_strategy.py:178 | reach is symmetric and stays within 3 columns and 3 rows |
| DefenseBuilder.ReactToBreach | python-algo/algo_strategy.py:177-182 | the inner loop for one breach yields the gated point and below-point destructors for each important point within reach |
| DefenseBuilder.BreachRequestsSound | python-algo/algo_strategy.py:177-182 | each request for one breach is a single destructor outside the exclusion zone, at a reachable point or the cell below it |
| DefenseBuilder.ReactivePlanSound | python-algo/algo_strategy.py:175-182 | for any history, each reactive request is a single destructor outside the exclusion zone, at an important point within distance 4 of some recorded breach or just below it |
| DefenseBuilder.BreachRequestsComplete | python-algo/algo_strategy.py:177-182 | for a reachable point, each of the point and the cell below it is requested unless it lies in the exclusion zone |
| DefenseBuilder.ReactivePlanComplete | python-algo/algo_strategy.py:175-182 | for every recorded breach and reachable important point, each of the point and the cell below it is requested unless it lies in the exclusion zone; the two gates are independent |
| DefenseBuilder.ReactivePlanAppend | python-algo/algo_strategy.py:175 | the plan for a longer history is the plan for its prefix followed by the plan for the rest, and a repeated breach repeats its requests |
| DefenseBuilder.SpawnsMember | python-algo/algo_strategy.py:139-142 | every request of a batch spawn is one unit of the batch's kind on one of its cells |
| DefenseBuilder.FixedLayoutsClear | python-algo/algo_strategy.py:135-150 | no cell of the baseline or funnel layouts lies in the exclusion zone |
| DefenseBuilder.FunnelOnlyForBiasedSide | python-algo/algo_strategy.py:144-153 | the funnel is empty exactly when the breach tally is level, and "center" gets no funnel |
| DefenseBuilder.DefensePlanAvoidsExclusionZone | python-algo/algo_strategy.py:127-184 | every defence request of a turn is a single encryptor or destructor outside the exclusion zone |
| Strategy.AlgoStrategy.BuildReactiveDefense | python-algo/algo_strategy.py:160-184 | yields the reactive destructors for the whole ledger followed by the funnel for the side `pick_defense_side` names |
| Strategy.AlgoStrategy.StallWithScramblers | python-algo/algo_strategy.py:253-267 | yields two scrambler requests of `int(threshold / 6)` at the left and then the right widened spawn |
| Strategy.StallPlanShape | python-algo/algo_strategy.py:265-267 | for a non-negative threshold a pass is exactly two scrambler requests of `threshold / 6`, at the left and then the right widened spawn |
| Strategy.CannonSpawn | python-algo/algo_strategy.py:123 | the cannon's cell is one of the two widened spawns |
| Strategy.CannonSpawnIsLeastDamage | python-algo/algo_strategy.py:123 | the cannon's cell is what `least_damage_spawn_location` picks from the two spawns: the left one unless the right one's path scores strictly less |
| Strategy.AlgoStrategy.PingCannon | python-algo/algo_strategy.py:122-125 | yields `int(pings)` single-ping requests at the cannon's cell (none for fewer than one bit) |
| Strategy.PingPlanShape | python-algo/algo_strategy.py:124-125 | for non-negative bits, the whole part of the bits in requests, each one ping at the cannon's cell |
| Strategy.AlgoStrategy.DeployMobileUnits | python-algo/algo_strategy.py:83-96 | the first scrambler pass is gated on the threshold before the update, then the threshold update, the cannon and the second pass on the updated threshold; the new threshold is `NextThreshold` of the old state and never smaller; the cannon flag is set iff own bits reach the new threshold |
| Strategy.AlgoStrategy.StarterStrategy | python-algo/algo_strategy.py:71-96 | a turn's requests are the baseline, the reactive defence and then the mobile units, and the threshold and flag updates are those of `DeployMobileUnits` |
| Strategy.DefenseHasNoMobileUnits | python-algo/algo_strategy.py:127-184 | the defence requests contain no scrambler or ping |
| Strategy.MobilePlanOfUnit | python-algo/algo_strategy.py:83-96 | a turn's scramblers are those of its two passes, and its pings those of the cannon |
| Strategy.TurnOfMobileUnit | python-algo/algo_strategy.py:78-96 | filtering a whole turn by scrambler or ping sees only its mobile units |
| Strategy.AtMostOneStallPass | python-algo/algo_strategy.py:83-96 | the health tests of the two passes are complementary, so at most one pass runs and a turn asks for at most two scrambler requests |
| Strategy.PingsOfTurn | python-algo/algo_strategy.py:86-93 | a turn asks for pings exactly when own bits reach the updated threshold, and then for `int(bits)` of them |
| Strategy.TurnKeepsExclusionZoneFree | python-algo/algo_strategy.py:71-96 | no encryptor or destructor request of a turn targets the exclusion zone |
| Strategy.FirstTurnScenario | python-algo/algo_strategy.py:83-96 | on the first turn, with own bits 10, opponent bits 3, own health 30 and enemy health 10: no scramblers, the threshold stays 6, and there are 10 pings |

## Left out

- JSON parsing of the action frame and of the config (`json.loads`, the `unitInformation` shorthands): the breaches arrive already parsed as `Breach(location, owner)` values, and unit kinds are a datatype.
- The engine (`gamelib`): `attempt_spawn` resource checks and placement, `contains_stationary_unit`, `find_path_to_edge`, `get_attackers` and the game map are fields of `Board`. Occupancy is therefore not updated by the requests of the same turn, and a request may still be refused by the engine.
- The random seed of `__init__`, `debug_write`, `suppress_warnings`, `on_turn`'s construction of the game state and `submit_turn`: these are I/O and engine calls.
- `emp_line_strategy` and `detect_enemy_unit`: only the commented-out branch of `starter_strategy` calls them, so no turn runs them.
- The `friendly_edges` and `deploy_locations` computed in `stall_with_scramblers`: the result is never used. `filter_blocked_locations` is modelled on its own.
- Floats are modelled as exact reals, and the Euclidean distance with `** 0.5` is replaced by the squared comparison. `DefenseBuilder.SqrtBelowFour` shows the two agree on exact reals; float rounding is not modelled.
- The default `side='right'` of `build_triangle_funnel`: its only caller always passes a side.
- `Strategy.AlgoStrategy.DeployMobileUnits` is a split of lines 83-96 of `starter_strategy` into a method of its own; the source has no such method.
- A turn's requests are returned as a list rather than queued in the game state.
- Engine resources within a turn: own and opponent bits come from the snapshot taken at the start of the turn. The engine deducts the cost of each accepted spawn, so in the source the gate, the cannon flag and `int(pings)` of lines 89-90 read own bits after the first scrambler pass (line 84) may have spent some. The model reads the turn-start value there, so it does not capture that spending. The opponent's bits, which both scrambler gates read, are not spent by the agent's own spawns.
- The `game_state` parameter of `stall_with_scramblers`, `ping_cannon`, `build_reactive_defense` and `pick_defense_side` is replaced by the board, or dropped where it is unused.
