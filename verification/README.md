# Autonomous decision controller — a Dafny model

This project models the per-unit AI of the game: the `Autonomous` behaviour in
`src/js/ai/autonomous.js`. The controller is attached to one unit. On a timer it
reconsiders what that unit should do. It keeps its current decision while that
decision is neither *done* nor *bad*. Otherwise it builds up to four candidate
decisions and picks one of those that are neither done nor bad:

- **retreat** to a safe sampled point;
- **attack** a weaker enemy;
- **regroup** with an unthreatened friend;
- **conquer** an unguarded beacon.

If no candidate survives, it changes nothing. Between reconsiderations it
forwards every tick to the sub-behaviour of its decision (`Reach` a point or
`Chase` a unit).

Modules, one per concern of the source file:

- `Choice` (choice.dfy): `Option`, `Filter`, and `Pick`, the model of `pick`.
- `Entities` (entities.dfy): points, units, beacons and the world query surface `W`.
- `Health` (health.dfy): `healthInArea`.
- `Queries` (queries.dfy): the four candidate queries and `healthAroundSelf`.
- `Decisions` (decisions.dfy): the decision variant, its `done`/`bad`
  predicates, and the candidate list.
- `Controller` (controller.dfy): the controller state, `updateSubBehavior`,
  `attach`, `cycle`, `reconsider` and `reservedPosition`, plus runs over many frames.
- `Scenarios` (scenarios.dfy): concrete worlds.

Modelling choices:

- `dist` is a field of the world (`Distance`): any function from two integer
  points to a non-negative whole number. `dist(a, b) < r` is `Closer` and `dist(a, b) <= r` is
  `NoFarther`. No result depends on the geometry, except that the unit's own
  health counts around itself only when it is at distance 0 from itself
  (`HealthAroundSelfCountsSelf`). The concrete scenarios use the chessboard
  distance.
- `pick` is an oracle. `Pick(s, k)` returns nothing for an empty list, else the
  element at `k % |s|`. Every element is reachable for some `k` (`PickReachesEvery`),
  so a property proved for all `k` holds whatever the random choice is. The five
  picks of one reconsideration get their oracle values from a `Choices` record.
- JavaScript object identity is the `id` field of units and beacons.
- The `done`/`bad` closures become the predicates `Done` and `Bad` on a
  `Decision` variant. The closures keep references to live objects, so the
  world carries the current state of every unit and beacon object by identity
  (`unitNow`, `beaconNow`), whether or not `W.units` or `W.beacons` still lists
  it, and the predicates read their target from there (`LatestUnit`,
  `LatestBeacon`). A well-formed world (`WellFormed`) lists units, cyclable units
  and beacons in their current state; the source file itself does not state this.
- The world `W`, the attached unit, the attack radius, `this.beacon` and the
  retreat sample points are passed in as a `Scene`.
- The regroup and conquer queries look for enemy health within **twice** the
  attack radius (lines 54 and 62).
- `subBehavior` is assigned only together with `currentDecision` (lines
  158-159). So it never holds a behaviour while there is no decision
  (`Synced`, `RunKeepsSynced`).

## Model

| member | source | states |
|---|---|---|
| `Choice.Pick` | src/js/ai/autonomous.js:153-156 | `pick` returns nothing exactly when the list is empty, otherwise an element of the list |
| `Choice.PickReachesEvery` | src/js/ai/autonomous.js:153 | every element of a list is a possible outcome of `pick` |
| `Health.HealthInArea` | src/js/ai/autonomous.js:15-21 | filtering by team, then by distance, then folding the health gives exactly the sum of health over the units of that team strictly within the radius (`AreaHealth`) |
| `Health.FilteredTotal` | src/js/ai/autonomous.js:17-20 | the left fold over the twice-filtered list equals the per-unit sum in which non-qualifying units add 0 |
| `Health.TotalHealthCons` | src/js/ai/autonomous.js:20 | the `reduce` left fold can be read from the front: first unit's health plus the fold of the rest |
| `Health.AreaHealthNoneQualify` | src/js/ai/autonomous.js:15-21 | health in area is 0 when no unit qualifies |
| `Health.AreaHealthIgnoresOtherTeam` | src/js/ai/autonomous.js:18 | inserting a unit of another team anywhere leaves the health in area unchanged |
| `Health.AreaHealthOfTeamOnly` | src/js/ai/autonomous.js:18 | dropping all units of other teams leaves the health in area unchanged |
| `Health.AreaHealthAppend` | src/js/ai/autonomous.js:17-20 | health in area is additive over a split of the unit list |
| `Health.AreaHealthPositiveIffLiving` | src/js/ai/autonomous.js:15-21 | with no negative health, health in area is never negative, and it is positive iff a living unit of the team stands strictly within the radius; so the `<= 0` tests mean "nobody of that team alive there" |
| `Health.AreaHealthWidens` | src/js/ai/autonomous.js:19 | with no negative health, a wider radius never gives less health |
| `Health.AreaHealthCountsMember` | src/js/ai/autonomous.js:15-21 | with no negative health, a qualifying unit contributes at least its own health |
| `Queries.HealthAroundSelf` | src/js/ai/autonomous.js:66-68 | with no negative health, the health around self is never negative, and positive exactly when a living unit of its team stands within twice the attack radius of the unit |
| `Queries.HealthAroundSelfCountsSelf` | src/js/ai/autonomous.js:66-68 | for a unit listed in `W.units`, with no negative health, a positive radius and the unit at distance 0 from itself, the health around self includes the unit's own health |
| `Queries.RetreatPosition` | src/js/ai/autonomous.js:33-38 | the retreat point is a sample outside every obstacle with no enemy health within twice the attack radius; nothing is returned iff no sample is like that |
| `Queries.RetreatPositionReachesEvery` | src/js/ai/autonomous.js:34-38 | every safe sample is a possible retreat point |
| `Queries.EnemyUnit` | src/js/ai/autonomous.js:41-48 | the target is a cyclable unit of the enemy team whose team's health within twice the radius is at most the health around self; nothing is returned iff no cyclable unit is like that |
| `Queries.EnemyUnitReachesEvery` | src/js/ai/autonomous.js:43-47 | every such enemy is a possible target |
| `Queries.AttackRejectsStrongerDefence` | src/js/ai/autonomous.js:46 | an enemy whose defending health exceeds the health around self is never the target |
| `Queries.FriendlyUnit` | src/js/ai/autonomous.js:50-56 | the friend is a world unit other than the unit itself, of its team, with no enemy health within twice the radius; nothing is returned iff there is none |
| `Queries.FriendlyUnitReachesEvery` | src/js/ai/autonomous.js:51-55 | every such friend is a possible choice |
| `Queries.ConquerableBeacon` | src/js/ai/autonomous.js:58-64 | the beacon is not `this.beacon`, not owned by the unit's team, and has no enemy health within twice the radius; nothing is returned iff there is none |
| `Queries.ConquerableBeaconReachesEvery` | src/js/ai/autonomous.js:59-63 | every such beacon is a possible choice |
| `Decisions.BehaviorOf` | src/js/ai/autonomous.js:81-135 | retreat and conquer hand over to `Reach`, attack and regroup to `Chase` |
| `Decisions.Assemble` | src/js/ai/autonomous.js:77-149 | at most 4 candidates, each carrying exactly what its query returned (built from one `Listed` part per query) |
| `Decisions.AssembleInOrder` | src/js/ai/autonomous.js:77-149 | candidates come in the order retreat, attack, regroup, conquer |
| `Decisions.AssemblePresence` | src/js/ai/autonomous.js:79-149 | each kind of candidate is present iff its query returned a value |
| `Decisions.Done` | src/js/ai/autonomous.js:84-86 | with no negative health, a retreat is done exactly when the unit is at most one attack radius from the spot and no living enemy stands strictly within one attack radius of the unit |
| `Decisions.Bad` | src/js/ai/autonomous.js:87-143 | with no negative health, a retreat is bad exactly when a living enemy stands within four attack radii of the spot; an attack, regroup or conquest is bad only when a living hostile unit stands within one attack radius of its target |
| `Decisions.Candidates` | src/js/ai/autonomous.js:77-149 | every candidate carries a target its query accepts: a safe sample, an attackable cyclable unit, a regroupable unit, a conquerable beacon |
| `Decisions.CandidatesComplete` | src/js/ai/autonomous.js:77-149 | each kind of candidate is offered exactly when some target of that kind passes its query's filter, whatever the picks |
| `Decisions.GoodDecisions` | src/js/ai/autonomous.js:151 | the survivors are exactly the candidates that are neither done nor bad |
| `Decisions.AttackBadMargin` | src/js/ai/autonomous.js:105-107 | an attack is bad past a margin of exactly 2: the target team's health within one attack radius of the target's current position exceeding the unit's team health within two attack radii of the unit by 2 is not bad, by 3 is bad |
| `Decisions.RegroupBadMargin` | src/js/ai/autonomous.js:123-125 | a regroup is bad past a margin of exactly 2: enemy health within one attack radius of the friend's current position exceeding the friend's team health there by 2 is not bad, by 3 is bad |
| `Decisions.ConquerBadMargin` | src/js/ai/autonomous.js:141-143 | a conquest is bad past a margin of exactly 2: enemy health within one attack radius of the beacon exceeding the unit's team health there by 2 is not bad, by 3 is bad |
| `Decisions.FreshCandidateNotBad` | src/js/ai/autonomous.js:97-149 | in a well-formed world without negative health, a fresh attack, regroup or conquer candidate is never bad, because its query's two-radius test is at least as strict as `bad()`'s one-radius test with margin 2 |
| `Decisions.ConquerCandidateSurvives` | src/js/ai/autonomous.js:133-151 | under the same conditions, a conquer candidate always survives filtering |
| `Controller.New` | src/js/ai/autonomous.js:3-7 | a new controller has no decision, no sub-behaviour, and re-evaluates at the first tick |
| `Controller.UpdateSubBehavior` | src/js/ai/autonomous.js:70-161 | a decision that is neither done nor bad is kept unchanged; when no candidate is neither done nor bad nothing changes, even if the old decision is done or bad; any change installs a candidate that is neither done nor bad together with its behaviour; when the old decision must go and a survivor exists, a survivor is installed |
| `Controller.UpdateNoChurn` | src/js/ai/autonomous.js:71-75 | after a change or a kept decision, reconsidering again in the same scene with any picks changes nothing |
| `Controller.UpdateIdempotent` | src/js/ai/autonomous.js:70-161 | reconsidering twice in the same scene with the same picks equals reconsidering once |
| `Controller.UpdateReachesEveryGoodCandidate` | src/js/ai/autonomous.js:151-160 | when the old decision must go, every surviving candidate is a possible new decision |
| `Controller.UpdateKeepsSynced` | src/js/ai/autonomous.js:158-159 | the sub-behaviour stays the one the current decision was built with |
| `Controller.Attach` | src/js/ai/autonomous.js:9-13 | attaching a controller without a decision gives it one iff some candidate is neither done nor bad; a new decision is neither done nor bad |
| `Controller.Cycle` | src/js/ai/autonomous.js:163-175 | the countdown drops by the elapsed time; iff it reaches 0 or below it restarts at 5 and the decision is reconsidered; otherwise nothing else changes; the tick goes to the resulting sub-behaviour, if any; the countdown is always positive afterwards |
| `Controller.Reconsider` | src/js/ai/autonomous.js:177-179 | the controller never lets itself be swapped out |
| `Controller.ReservedPosition` | src/js/ai/autonomous.js:196-198 | the sub-behaviour's reserved position when there is one, otherwise the unit's position |
| `Controller.ReservedPositionFollowsDecision` | src/js/ai/autonomous.js:196-198 | while the sub-behaviour is in step with the decision, the reserved position is that of the behaviour the current decision was built with, or the unit's own position before any decision |
| `Controller.RunReservedPosition` | src/js/ai/autonomous.js:163-198 | after any sequence of ticks from a fresh or synced controller, the reserved position still follows the current decision |
| `Controller.RunKeepsSynced` | src/js/ai/autonomous.js:163-175 | over any sequence of ticks the sub-behaviour stays in step with the decision |
| `Controller.RunTimerBounded` | src/js/ai/autonomous.js:166-169 | with non-negative elapsed times the countdown never exceeds 5, and is positive after any tick |
| `Controller.RunKeepsGoodDecision` | src/js/ai/autonomous.js:71-75 | a decision that stays neither done nor bad in every frame is followed for the whole run |
| `Scenarios.DuelCandidates` | src/js/ai/autonomous.js:41-56 | beside a single weaker enemy with no friend, beacon or retreat sample, the only candidate is to attack it |
| `Scenarios.DuelAttackGood` | src/js/ai/autonomous.js:102-107 | that attack is neither done (the enemy lives) nor bad (its team's health there does not exceed the unit's by more than 2) |
| `Scenarios.DuelStartsAttack` | src/js/ai/autonomous.js:97-160 | a unit facing a single weaker enemy, with no friend, no beacon and no retreat sample, commits to attacking it and chases it; with safe retreat samples a retreat would be another possible outcome |
| `Scenarios.DeadEnemyEndsAttack` | src/js/ai/autonomous.js:102-104 | an attack is done once its target has lost its health, even when the world no longer lists the target |
| `Scenarios.OutpostIsConquered` | src/js/ai/autonomous.js:133-160 | a lone unit beside an unguarded enemy beacon, with no retreat sample, commits to conquering it and reaches for it; with safe retreat samples a retreat would be another possible outcome |
| `Scenarios.RegroupDoneStrictlyWithin` | src/js/ai/autonomous.js:120-122 | a regroup is done only when the friend is strictly within one attack radius: at exactly that distance it is not done, one step closer it is |
| `Scenarios.TurnedBeaconEndsConquest` | src/js/ai/autonomous.js:138-140 | a conquest is done once the beacon belongs to the unit's team |

## Left out

- Retreat point sampling (lines 24-31): it uses `cos`, `sin`, `PI` and the `evaluate` jitter, all floating point. The sample points are an input of the `Scene`. The model does not state that there are 10 of them on a circle of four attack radii.
- `render` and the `DEBUG` labels (lines 181-194, 91-148): canvas drawing only.
- src/js/main.js: canvas and page setup.
- The `Behavior` base class, `Reach` and `Chase` are not part of this model. `super.attach`, `super.cycle` and `subBehavior.attach` have no effect in the model. `subBehavior.cycle(e)` is recorded as the sub-behaviour the tick is forwarded to. A sub-behaviour's own `reservedPosition()` is a function parameter.
- `W.pointInObstacle`, each team's `enemy` and `dist` are function fields of the world. Points have integer coordinates and distances are whole numbers, in place of floating point; `dist` is not required to be Euclidean or even a metric.
- Elapsed time is an integer, not a floating-point number.
- `health` is an integer, not a floating-point number. With fractional health, summing in a different order could change the result by rounding, so the equation of the `reduce` left fold with the front-first sum `AreaHealth` (`Health.FilteredTotal`, `Health.HealthInArea`) holds only for whole-number health.
- `pick` is uniform in the game. The model quantifies over every possible outcome and says nothing about probabilities.
- The `dead` flag is not shown in the source. It is modelled as health at most 0.
- `this.beacon` is never assigned in the source file. It is an input of the `Scene`.
- Decisions.Done: the contract states only the retreat case (lines 84-86). The attack, regroup and conquest cases (lines 102-104, 120-122, 138-140) are single tests on the target's current state; the scenarios `DeadEnemyEndsAttack`, `RegroupDoneStrictlyWithin` and `TurnedBeaconEndsConquest` exhibit them.
- Decisions.Bad: for attack, regroup and conquest the contract states only a necessary condition (a living hostile unit near the target). The exact thresholds are stated separately, at the boundary, by `AttackBadMargin`, `RegroupBadMargin` and `ConquerBadMargin`.
- `unitNow` and `beaconNow` are total functions of the identity; identities that no object of the game carries get some state that no decision reads.
