# Arcade shooter simulation core, modelled in Dafny

This project models the simulation core of a first-person browser arcade
shooter (`codex-test-3d-game`). It covers six source files:

- **Collision resolver** (`scripts/core/collision.js`): a move is tried in full. If the target is
  blocked by a padded obstacle box, the move is walked in equal planar steps
  of at least 0.1. The walk stops before the first step that would intersect,
  and the axes along which the move had a component are reported.
- **Difficulty controller** (`scripts/enemy/difficultyController.js`): it keeps a capped FIFO
  window of time-to-kill samples and a spawn-time table. It computes three
  performance metrics, turns them into a raw score, and smooths the
  difficulty modifier toward `1 + score` clamped to `[minModifier,
  maxModifier]`. It picks the first score band `[minScore, maxScore)` that
  matches, and rewrites waves: enemy count, spawn interval and archetype
  filter.
- **Enemy** (`scripts/enemy/enemy.js`): seeks the target across the ground plane. Death is latched
  once health reaches 0.
- **Wave scheduler** (`scripts/enemy/enemySpawner.js`): a state machine over an ordered wave list
  (start, paced spawning, clearance, intermission, schedule complete). It
  asks the difficulty controller to reshape the current wave, reports kills
  once, and purges enemies whose death timer has run out.
- **Player controller** (`scripts/player/playerController.js`): WASD steering with acceleration,
  deceleration and a speed clamp. It has a fire queue with a cooldown, and a
  projectile pass that ages and moves shots. Each live shot damages the first
  enemy within distance 1; a kill splices that enemy out and scores 100.
- **Logger** (`scripts/core/logger.js`): a sink registry that every entry is fanned out to. A
  throwing sink gets a console warning, and only an error from that warning
  escapes. It also has a 12-deep breadcrumb buffer with a summary of the 5
  newest crumbs, session context merged under every entry's context, and
  one-time registration of the global error listeners.

Objects whose fields the source updates in place are classes:
`DifficultyController`, `Enemy`, `EnemySpawner`, `PlayerController` and
`Logger`. Their methods carry `modifies` clauses and state the new state.
The pure helpers are functions, and the properties are lemmas.

Inputs the source takes from the environment become parameters:

- `Math.random()` becomes a roll in `[0, 1)`.
- `performance.now()` and `new Date()` become `now` and timestamp strings.
- Generated ids become parameters.
- Whether a sink throws, and with what message, becomes the `fails` function.
- An enemy's own per-tick behaviour, as the scheduler sees it, becomes `advance`.
- The camera's right and back axes and the aim direction become vectors.
- Square roots are avoided: the planar distance of an enemy to its target and
  `1/√2` are inputs constrained by their squares. The collision step count is
  characterised as the least `k` whose `k` steps cover the planar length.

Values the source reads with `x || default` use 0 or the empty list for
"missing", because both are falsy. Settings read with a destructuring default
(`minModifier = 0.85`) are `Option`s, because only an absent one is replaced.

What the code does, and so what the model does:

- Enemies have no patrol/chase/attack state machine, no archetype stats and no
  death timer. `Enemy` seeks and is hit, nothing more. The scheduler's enemies
  are abstract records advanced by `advance`.
- The player has no health, armor, ammunition or reload.
- During an intermission, each `update` first counts the timer down. The
  cleared wave is still the current one, so the spawn phase runs again for it,
  reshaped under the just re-rated modifier. While that adjusted count stays at
  or below the number already spawned and the field is empty, `finishWave` is
  called again and resets the timer to the full intermission;
  `Spawner.IntermissionRestarts` states this reset as written. In that case a
  later wave starts only on an update whose `delta` covers the whole
  intermission. When a higher modifier lifts the adjusted count above the
  number spawned, the wave is not finished again and the intermission counts
  down normally. If the spawn timer has also run out, one more enemy of the
  cleared wave spawns during the intermission.

## Model

| member | source | states |
|---|---|---|
| Common.Filter | scripts/enemy/enemySpawner.js:181-188 | `Array.filter`: the result is an order-preserving subsequence that holds exactly the elements that pass the test |
| Common.FilterCounts | scripts/enemy/enemySpawner.js:181-188 | the filter keeps every copy of an element that passes and none of one that fails |
| Common.PickIndex | scripts/enemy/enemySpawner.js:122 | `Math.floor(roll * n)` with `roll` in [0, 1) is a valid index into a non-empty list |
| Common.LastN | scripts/core/logger.js:172 | for `n >= 1`, `slice(-n)` is exactly `n` long, or the whole list when it is shorter (every use has `n >= 1`; `slice(-0)` would return the whole list, which `LastN(s, 0)` does not) |
| Common.LastNIsSuffix | scripts/core/logger.js:172 | `slice(-n)` is a suffix: the list is what precedes the slice followed by the slice |
| Common.SlideKeepsLatest | scripts/enemy/difficultyController.js:29-33 | pushing onto a window of the last `limit` items, then shifting when it is over `limit`, gives the last `limit` items of the whole history |
| Collision.IntersectsObstacles | scripts/core/collision.js:36-48 | a position intersects exactly when some obstacle with a box contains it in x and z after the box is padded by the radius |
| Collision.IntersectionIgnoresHeight | scripts/core/collision.js:36-48 | the intersection test does not depend on the height of the position |
| Collision.StepSize | scripts/core/collision.js:17 | `Math.max(0.1, radius * 0.5)`: at least 0.1 and at least half the radius, and equal to one of them |
| Collision.CeilSteps | scripts/core/collision.js:18 | the least count, from `n` up, whose steps cover the distance; every smaller count falls short |
| Collision.StepCount | scripts/core/collision.js:18 | `Math.max(1, Math.ceil(hypot / stepSize))`: at least 1, its steps cover the planar length, and no smaller count does |
| Collision.ReachLowerBound | scripts/core/collision.js:18 | `k` steps of at least 0.1 cover at least `sqrt(k)/10`, so the step search terminates |
| Collision.AlongEnd | scripts/core/collision.js:19-29 | the full number of increments reaches the planar target at the starting height |
| Collision.ApplyMovementWithCollisions | scripts/core/collision.js:1-34 | the height never changes; a move with no planar length changes nothing; a clear target is reached in full; otherwise the walk stops before the first intersecting step and stays on the move, never beyond it; the result is the start or a clear position; axes are reported exactly when the walk ran, one per moving axis |
| Difficulty.Clamp | scripts/enemy/difficultyController.js:3 | the result is at most `max`; it is at least `min` when the range is not empty; a value inside the range is returned unchanged |
| Difficulty.Round | scripts/enemy/difficultyController.js:126 | `Math.round` is within half a unit of its argument, with halves rounded up |
| Difficulty.SampleLimit | scripts/enemy/difficultyController.js:30 | `maxTtkSamples || 24` is at least 1 |
| Difficulty.ResolveBand | scripts/enemy/difficultyController.js:59-68 | the first band whose `[minScore, maxScore)` contains the score, or the baseline band when none does |
| Difficulty.BoundaryBelongsToUpperBand | scripts/enemy/difficultyController.js:63-64 | a score on the shared boundary of two adjacent bands selects the upper band |
| Difficulty.SmoothStaysInRange | scripts/enemy/difficultyController.js:84-86 | one smoothing step between two points of a range stays in the range and covers the `smoothing` fraction of the distance |
| Difficulty.SettleStaysInRange | scripts/enemy/difficultyController.js:84-86 | after any sequence of updates, a modifier that starts inside `[minModifier, maxModifier]` stays inside |
| Difficulty.HealthRatio | scripts/enemy/difficultyController.js:44-46 | the health ratio is always in [0, 1] |
| Difficulty.AverageTimeToKill | scripts/enemy/difficultyController.js:40-42 | the mean of the samples (their count times it is their sum), or the configured target when there are none |
| Difficulty.LatchedAmmo | scripts/enemy/difficultyController.js:48-50 | a falsy ammo baseline becomes the player's magazine plus reserve; a set one is kept |
| Difficulty.AmmoSpentRatio | scripts/enemy/difficultyController.js:51-54 | the target without a baseline; otherwise in [0, 1], and exactly the spent fraction when the remaining ammo is within the baseline |
| Difficulty.AdjustedCount | scripts/enemy/difficultyController.js:126 | the adjusted count is at least 1 and otherwise `count * modifier` rounded |
| Difficulty.AdjustedCountMonotone | scripts/enemy/difficultyController.js:126 | a higher modifier never gives fewer enemies |
| Difficulty.FilterTypes | scripts/enemy/difficultyController.js:123-124 | the types are a subsequence of the source; they are exactly the allowed source types when there is one, and the source unchanged when there is none |
| Difficulty.FilterTypesKeepsCopies | scripts/enemy/difficultyController.js:123-124 | when some source type is allowed, every allowed type keeps all its copies and every other type loses them all |
| Difficulty.BandAllowed | scripts/enemy/difficultyController.js:121 | a non-empty result is the archetype list of a band with the current band's name |
| Difficulty.ArchetypeFilterExample | scripts/enemy/difficultyController.js:119-130 | a wave of brute and grunt, restricted to grunt and ranger, keeps only grunt |
| Difficulty.FirstNamed | scripts/enemy/difficultyController.js:121 | `bands.find` stops at the first band with the name, or runs off the end when there is none |
| Difficulty.DifficultyController.constructor | scripts/enemy/difficultyController.js:6-14 | starts at modifier 1 in the baseline band with no samples, no spawn times and no ammo baseline |
| Difficulty.DifficultyController.TrackSpawn | scripts/enemy/difficultyController.js:16-22 | records the spawn time; takes the ammo baseline from the enemy's combat settings only while there is none |
| Difficulty.DifficultyController.TrackKill | scripts/enemy/difficultyController.js:24-36 | a known kill adds its time-to-kill to the window, which never exceeds its cap and always holds the newest samples, and forgets the spawn; an unknown kill changes nothing |
| Difficulty.DifficultyController.CalculateMetrics | scripts/enemy/difficultyController.js:38-57 | the mean time-to-kill, or the target when there are no samples; the health ratio in [0, 1]; the ammo ratio in [0, 1] against the baseline, which is captured once, or the target when there is no baseline |
| Difficulty.DifficultyController.Update | scripts/enemy/difficultyController.js:70-117 | the modifier moves toward the clamped `1 + score` by the smoothing fraction and stays in its bounds; the band follows the raw score; the log notice is a band shift, a move over 0.05, or nothing |
| Difficulty.AdjustWave | scripts/enemy/difficultyController.js:119-130 | the count is the adjusted count; the interval times the modifier gives back the original interval, with 1 as the last fallback; the types are the source types filtered by the first band of the current name, or by the caller's list when that band allows nothing, and a subsequence of the source; every other field is copied |
| EnemyAgent.SeekStepGeometry | scripts/enemy/enemy.js:25-31 | a seek step keeps the height, moves exactly `speed * delta` across the ground, and shrinks the remaining offset in proportion |
| EnemyAgent.Enemy.constructor | scripts/enemy/enemy.js:4-10 | a new enemy stands at its position with health 1, alive |
| EnemyAgent.Enemy.Update | scripts/enemy/enemy.js:22-34 | a dead enemy or one within 0.001 of its target does not move; otherwise it takes one seek step; the height never changes |
| EnemyAgent.Enemy.Hit | scripts/enemy/enemy.js:36-41 | health drops by the damage; death is set once health reaches 0 and is never cleared |
| Spawner.IsTypeAllowed | scripts/enemy/enemySpawner.js:145-150 | a type without an archetype is refused; with an archetype it is allowed when there is no allow-list, and otherwise exactly when it is on the list |
| Spawner.PickEnemyTypeChoice | scripts/enemy/enemySpawner.js:137-150 | the pick throws exactly when the archetype table is missing; otherwise it is an allowed candidate of the wave whenever one exists, and the default type when none is |
| Spawner.BoxOf | scripts/enemy/enemySpawner.js:34-41 | the box is centred on the obstacle's position and has the obstacle's size on every axis |
| Spawner.ReportedIdsInOrder | scripts/enemy/enemySpawner.js:109-115 | the kills reported in one `forEach` are exactly the ids of the enemies that are dead after their update and not yet recorded, in list order |
| Spawner.ReportedOnce | scripts/enemy/enemySpawner.js:111-113 | once a kill is reported it is latched, and no later update reports it again |
| Spawner.TickAll | scripts/enemy/enemySpawner.js:109-115 | every enemy is updated in place: the list keeps its length and each enemy its id, type and spawn time, and no dead enemy is left unrecorded |
| Spawner.ReportedIdsAppend | scripts/enemy/enemySpawner.js:109-115 | the reports of a list are the reports of its parts, one after the other |
| Spawner.RecordKillsAppend | scripts/enemy/difficultyController.js:24-36 | recording a list of kills is recording its parts, one after the other |
| Spawner.RecordKillsEffect | scripts/enemy/difficultyController.js:24-36 | recording kills only appends samples, at most one per report, and only removes spawn times, so a reported enemy never keeps a truthy spawn time |
| Spawner.AdvanceCases | scripts/enemy/enemySpawner.js:62-78 | the opening of `update`: the first update starts wave 1; a running intermission counts down and reports the time left, and starts the next wave once it runs out; otherwise only the spawn timer runs down; completion is never undone |
| Spawner.AttemptOutcome | scripts/enemy/enemySpawner.js:92-102 | a spawn is attempted exactly when it is due; it throws, changing nothing, exactly when the archetype table is missing; otherwise it counts and rearms the timer, and with spawn points it appends one new, alive enemy of the picked type at the drawn point and records its spawn time |
| Spawner.ClearOutcome | scripts/enemy/enemySpawner.js:104-106 | the clearance check changes nothing unless the quota is met and the field is empty; then the wave is reported complete and either the schedule completes or the intermission is set |
| Spawner.SpawnPhaseOutcome | scripts/enemy/enemySpawner.js:92-107 | nothing happens once the schedule is complete or past the waves; only a due spawn can throw, and then nothing changed; at most one enemy is appended; a wave finishes only with its quota spawned and the field empty |
| Spawner.IntermissionRestarts | scripts/enemy/enemySpawner.js:68-106 | while the adjusted count is at most the number already spawned, an update inside an intermission that its `delta` does not cover finishes the cleared wave again: the countdown restarts at the full intermission and the wave index stays |
| Spawner.ConstructEnemy | scripts/enemy/enemy.js:4-10 | `new Enemy(position, config)` succeeds exactly when `config` is the game configuration, and then stands at `position` |
| Spawner.CreateEnemyInstanceAlwaysThrows | scripts/enemy/enemySpawner.js:133-135 | as written, creating an enemy throws for every type, spawn point and configuration |
| Spawner.CreateEnemyInstance | scripts/enemy/enemySpawner.js:133-135 | with the constructor's declared arguments, the enemy is created at the spawn point |
| Spawner.EnemySpawner.constructor | scripts/enemy/enemySpawner.js:6-27 | everything starts empty, with wave index -1 and a fresh difficulty controller at modifier 1 |
| Spawner.EnemySpawner.LoadSpawnPoints | scripts/enemy/enemySpawner.js:29-31 | the spawn points become the given points |
| Spawner.EnemySpawner.SetObstacles | scripts/enemy/enemySpawner.js:33-42 | one box per obstacle, in order, each centred on the obstacle with its size |
| Spawner.EnemySpawner.SetAllowedTypes | scripts/enemy/enemySpawner.js:44-46 | the allow-list becomes the given types |
| Spawner.EnemySpawner.ConfigureWaves | scripts/enemy/enemySpawner.js:52-59 | the given waves, or the configured ones when the list is empty; the schedule restarts at index -1 with its total recorded |
| Spawner.EnemySpawner.StartNextWave | scripts/enemy/enemySpawner.js:152-166 | advances the index by one and resets the counters and timers; past the last wave the schedule completes, otherwise the wave-start callback fires with the wave's number |
| Spawner.EnemySpawner.FinishWave | scripts/enemy/enemySpawner.js:168-179 | reports the wave complete; after the last wave the schedule completes, otherwise the intermission is set from the wave, or from the configured default |
| Spawner.EnemySpawner.SpawnEnemy | scripts/enemy/enemySpawner.js:120-131 | nothing without spawn points; otherwise exactly one enemy is appended at the rolled spawn point and its spawn time is recorded, and the ammo baseline is not touched |
| Spawner.EnemySpawner.TrySpawn | scripts/enemy/enemySpawner.js:92-102 | a spawn is attempted exactly when the timer has run out, the quota is not met and there is room; an attempt counts, rearms the timer and appends an enemy of the picked type |
| Spawner.EnemySpawner.CheckClearance | scripts/enemy/enemySpawner.js:104-106 | a wave with its quota met and no enemy left is finished, with the same outcomes as `finishWave`; otherwise nothing changes |
| Spawner.EnemySpawner.TickOne | scripts/enemy/enemySpawner.js:110-114 | one enemy is updated and, when it is newly dead and not yet recorded, its kill is recorded once |
| Spawner.EnemySpawner.TickEnemies | scripts/enemy/enemySpawner.js:109-115 | each enemy is advanced in place; exactly the newly dead, not yet recorded enemies are reported, in list order; afterwards every dead enemy is recorded |
| Spawner.EnemySpawner.CleanupEnemies | scripts/enemy/enemySpawner.js:181-188 | drops exactly the dead enemies whose death timer is at or below 0 and keeps the order of the rest |
| Spawner.EnemySpawner.SettleField | scripts/enemy/enemySpawner.js:109-117 | the field is every enemy after its update minus the expired ones, in order; the kills are recorded in list order; no expired enemy remains and every dead one is recorded |
| Spawner.EnemySpawner.AdvanceSchedule | scripts/enemy/enemySpawner.js:62-78 | the first wave starts on the first update; a running intermission counts down and starts the next wave when it runs out; completion is never undone |
| Spawner.EnemySpawner.SpawnAndClear | scripts/enemy/enemySpawner.js:85-107 | the spawn attempt and clearance check for the wave as the controller reshapes it; a throw leaves the field and spawn times as they were |
| Spawner.EnemySpawner.ScheduleAndSpawn | scripts/enemy/enemySpawner.js:62-107 | the schedule advances as `Advance` gives it; the controller re-rates the player, so the modifier takes a smoothing step toward the clamped `1 + score` of the player's metrics against the latched ammo baseline, and the band is that of the raw score; the spawn attempt and clearance check are `SpawnPhase` over the wave reshaped under that new modifier and band; a throw leaves the field and spawn times as they were |
| Spawner.EnemySpawner.Update | scripts/enemy/enemySpawner.js:61-118 | the schedule, the re-rating and the spawn step are those of `ScheduleAndSpawn`; unless the spawn attempt threw, the field is every enemy after its update minus the expired ones, in order, the kills are recorded in list order, no expired enemy remains and every dead one has been reported |
| Player.ClampTo | scripts/player/playerController.js:63-64 | `MathUtils.clamp` lands in the range and moves a value only when it is outside |
| Player.KeyAxis | scripts/player/playerController.js:48-51 | an axis is -1, 0 or 1, and 0 exactly when both of its keys or neither are held |
| Player.NormalizedIsUnit | scripts/player/playerController.js:47-53 | the normalised WASD direction is zero with no net key, and of unit length otherwise, diagonals included |
| Player.FlightKeepsUnexpired | scripts/player/playerController.js:104-111 | with nobody to hit, the surviving shots are the unexpired ones, one for one, each moved by its velocity |
| Player.FlightSnoc | scripts/player/playerController.js:104-111 | a shot added last survives, moved, exactly when it is not expired, and leaves the others alone |
| Player.FlightExpiry | scripts/player/playerController.js:107-111 | a pass over shots that are all too old leaves none; a pass over shots that are all young keeps every one |
| Player.RemoveAt | scripts/player/playerController.js:120 | `splice(i, 1)` removes exactly the element at `i` and shifts the rest down |
| Player.RemoveAtCounts | scripts/player/playerController.js:120 | `splice(i, 1)` takes out one copy of the element at `i` and nothing else |
| Player.RemoveAtSubsequence | scripts/player/playerController.js:120 | splicing keeps the list a subsequence of the original |
| Player.WornIsLinear | scripts/enemy/enemy.js:36-37 | `n` hits of `damage` take `n` times the damage off the health |
| Player.WornFalls | scripts/enemy/enemy.js:36-37 | with non-negative damage, more hits never leave more health |
| Player.DownedLatches | scripts/enemy/enemy.js:36-41 | with non-negative damage, an enemy is dead after `n` hits exactly when it started dead or the hits took its health to 0 or below |
| Player.DownedStays | scripts/enemy/enemy.js:38-40 | death is never cleared: dead after `m` hits means dead after any more |
| Player.Reach | scripts/player/playerController.js:113-116 | the first enemy in list order within distance 1: every earlier one is at least 1 away, and with none, every enemy is |
| Player.PassShotsGrow | scripts/player/playerController.js:104-128 | the filter only adds shots: the survivors of a prefix of the shots are a prefix of the survivors |
| Player.PassKeepsClearShots | scripts/player/playerController.js:104-127 | an unexpired shot clear of every enemy still listed survives, moved, in its place; any other shot does not survive |
| Player.TurnKeepsClear | scripts/player/playerController.js:104-127 | a shot's turn keeps every surviving shot clear of every listed enemy, and adds at most itself, moved and unexpired |
| Player.PassShotsAreClear | scripts/player/playerController.js:104-128 | every surviving shot is an unexpired, moved shot, and clear of every enemy still listed |
| Player.TurnHits | scripts/player/playerController.js:104-127 | an unexpired shot either survives or hits, exactly one of the two; an expired one does neither; only listed enemies are hit |
| Player.PassSpendsShots | scripts/player/playerController.js:104-128 | the survivors and the hits together number the unexpired shots |
| Player.PassHitsListed | scripts/player/playerController.js:113-118 | only enemies on the list are hit |
| Player.SpliceWound | scripts/player/playerController.js:118-119 | a hit that does not kill keeps the list a spliced-down copy of the original, with 100 points per removal |
| Player.SpliceKill | scripts/player/playerController.js:118-122 | a hit that kills, spliced out for 100 points, keeps the list a spliced-down copy of the original, every copy removed belonging to a dead enemy hit at least that often |
| Player.TurnSplices | scripts/player/playerController.js:104-127 | a shot's turn keeps the list a subsequence of the original, scores 100 per removal, and removes only dead enemies |
| Player.PassSplices | scripts/player/playerController.js:104-128 | after the pass the list is an ordered subsequence of the original, the score has risen by exactly 100 per enemy removed, and every removed enemy was hit and is dead |
| Player.PassWithoutEnemies | scripts/player/playerController.js:104-128 | with no enemies the pass is the flight: no hits, no splices, and the score unchanged |
| Player.Decayed | scripts/player/playerController.js:59-60 | the velocity is scaled by `1 - deceleration * delta` |
| Player.PlayerController.constructor | scripts/player/playerController.js:5-21 | at rest at the start position, with no keys, no shots, no cooldown and score 0 |
| Player.PlayerController.KeyDown | scripts/player/playerController.js:24-26 | the key is held afterwards, and the other keys are unchanged |
| Player.PlayerController.KeyUp | scripts/player/playerController.js:28-30 | the key is released afterwards, and the other keys are unchanged |
| Player.PlayerController.MouseDown | scripts/player/playerController.js:32-36 | only the primary button queues a shot |
| Player.PlayerController.SetPosition | scripts/player/playerController.js:39-41 | the position becomes the given one |
| Player.PlayerController.Accelerate | scripts/player/playerController.js:47-64 | each velocity component ends within `maxSpeed`; with no net key it is the old one decayed by `deceleration * delta`, otherwise the old one pushed against the normalised WASD direction by `acceleration * delta`, then clamped |
| Player.PlayerController.Translate | scripts/player/playerController.js:66-69 | the body moves by `vx * delta` along the camera's right axis and `vz * delta` along its back axis, and its height is then pinned to 2.4 |
| Player.PlayerController.Shoot | scripts/player/playerController.js:82-99 | appends one shot from the current position, aimed at the projectile speed and stamped with the time |
| Player.PlayerController.Fire | scripts/player/playerController.js:71-76 | a queued shot fires exactly when the cooldown has run out, and then rearms it to `1 / fireRate`; the queue is always cleared |
| Player.PlayerController.FirstHit | scripts/player/playerController.js:113-116 | the loop finds what `Reach` finds: the first enemy in list order within distance 1, or none |
| Player.PlayerController.HitAt | scripts/player/playerController.js:117-123 | the enemy hit takes the damage; when the hits it has taken leave it dead, it is spliced out and 100 points are scored, otherwise the list and score stay; every enemy's health and death flag stay those its hits give it |
| Player.PlayerController.StepProjectile | scripts/player/playerController.js:104-127 | one shot's turn of the filter: the shot kept, the list left and the score are those of `Turn`, and every enemy's health and death flag are those its hits so far give it |
| Player.PlayerController.UpdateProjectiles | scripts/player/playerController.js:101-129 | the surviving shots, the list left and the score are those of `Pass` over the shots in order; every enemy keeps its position, and its health and death flag are those of `hit(damage)` applied once per hit it took |
| Player.PlayerController.Update | scripts/player/playerController.js:43-80 | the velocity is `Accelerate`'s, the position `Translate`'s by the new velocity, the cooldown and queue `Fire`'s, and the shots, list, score and enemies are those of the projectile pass over the old shots plus the one fired from the new position, if any |
| Logging.Get | scripts/core/logger.js:175 | a property is found exactly when its key is an own key |
| Logging.Put | scripts/core/logger.js:157-161 | setting a key makes it map to the value, leaves every other key alone, and keeps keys unique |
| Logging.Spread | scripts/core/logger.js:157-161 | `{...o, ...extra}` has the keys of both and keeps keys unique |
| Logging.SpreadGet | scripts/core/logger.js:204 | in a spread, later keys win: a key of `extra` reads from `extra`, and any other key reads from `o` |
| Logging.Delete | scripts/core/logger.js:173-174 | `delete` removes exactly that key, and what is left is a subsequence of the object's properties, in order |
| Logging.DeleteGet | scripts/core/logger.js:173-174 | deleting a key leaves every other key's value as it was |
| Logging.NatText | scripts/core/logger.js:175 | a number's decimal text is non-empty, all digits, and has no leading zero |
| Logging.NatTextValue | scripts/core/logger.js:175 | reading a number's decimal text back gives the number |
| Logging.JoinEndsWithLast | scripts/core/logger.js:178 | `join` ends with its last part |
| Logging.MakeCrumb | scripts/core/logger.js:156-161 | a breadcrumb has `event` and `timestamp` and the metadata's keys, and no others |
| Logging.CrumbFields | scripts/core/logger.js:157-161 | metadata overrides `event` and `timestamp`; otherwise they are the given ones |
| Logging.RecordedCrumbHasDetails | scripts/core/logger.js:172-176 | a recorded crumb always has details, so `no-details` never appears for it |
| Logging.SummaryEndsWithNewest | scripts/core/logger.js:169-179 | the summary of a non-empty buffer ends with the newest crumb |
| Logging.SummaryOfNewest | scripts/core/logger.js:172 | only the five newest crumbs affect the summary |
| Logging.DispatchInOrder | scripts/core/logger.js:213-225 | the sinks handed the entry are a prefix of the registry, in order, each once; every sink when no error escapes |
| Logging.DispatchErrorFromFallback | scripts/core/logger.js:213-225 | an error escapes only from the console warning about a throwing sink, and that warning is the last call made |
| Logging.EverySinkReached | scripts/core/logger.js:213-225 | when the console warning never throws, no error escapes and every registered sink receives the entry, whatever the other sinks do |
| Logging.NoErrorEscapes | scripts/core/logger.js:213-225 | when the console warning never throws, no error escapes |
| Logging.DispatchStops | scripts/core/logger.js:213-225 | once an error escapes, no later sink is called |
| Logging.SinkTurnReceivers | scripts/core/logger.js:213-224 | a sink's turn hands the entry to that sink alone, and an error escapes only from the console warning that follows it |
| Logging.DispatchNext | scripts/core/logger.js:213-225 | the loop over the registry takes one more sink's turn while no error has escaped, and stops with the whole dispatch when one does |
| Logging.BaseContext | scripts/core/logger.js:197-202 | the base context has exactly the keys `sessionId`, `levelName`, `breadcrumbs` and `breadcrumbTrail`, each once |
| Logging.MakeEntry | scripts/core/logger.js:204-211 | an entry carries the level, message and time, and a context that is never dropped and always has the session keys |
| Logging.EntryContext | scripts/core/logger.js:204 | a caller's key overrides the base context; any other key reads from the base context |
| Logging.Lift | scripts/core/logger.js:182 | a flat object carried into a context keeps its keys, values and order |
| Logging.Logger.constructor | scripts/core/logger.js:5-14 | a new logger has the console sink only, the bootstrap level name, no breadcrumbs and no listeners |
| Logging.Logger.RegisterSink | scripts/core/logger.js:121-125 | only a function is appended to the registry |
| Logging.Logger.EnableOverlaySink | scripts/core/logger.js:127-133 | the overlay sink is created and registered once; later calls return the same sink and register nothing |
| Logging.Logger.RegisterNetworkSink | scripts/core/logger.js:135-139 | the network sink is appended and returned |
| Logging.Logger.SetLevelName | scripts/core/logger.js:152-154 | the level name becomes the given one |
| Logging.Logger.AddBreadcrumb | scripts/core/logger.js:156-167 | the crumb is appended, the buffer never exceeds 12, and it always holds the newest 12 crumbs of the whole history |
| Logging.Logger.Log | scripts/core/logger.js:192-226 | an unknown level throws before any sink is called; otherwise the entry is dispatched to every sink in order, and the error that escapes is returned |
| Logging.Logger.HandTo | scripts/core/logger.js:213-224 | one sink's turn: the sink is called; if it throws, the console warning follows, and only that warning's error escapes |
| Logging.Logger.ForEachSink | scripts/core/logger.js:213-225 | the calls made and the error that escapes are those of the in-order dispatch |
| Logging.Logger.Debug | scripts/core/logger.js:228-230 | logs at `debug` |
| Logging.Logger.Info | scripts/core/logger.js:232-234 | logs at `info` |
| Logging.Logger.Warn | scripts/core/logger.js:236-238 | logs at `warn` |
| Logging.Logger.Error | scripts/core/logger.js:240-242 | logs at `error` |
| Logging.Logger.StartSession | scripts/core/logger.js:141-150 | new session id, level name defaulting to `unknown`, breadcrumbs emptied, then the session start is logged at info level |
| Logging.Logger.LogWithContext | scripts/core/logger.js:181-190 | a bound logger logs with its base context spread under the call's context |
| Logging.Logger.BreadcrumbWithContext | scripts/core/logger.js:188 | a bound breadcrumb spreads the base context under its metadata |
| Logging.Logger.AttachGlobalErrorHandlers | scripts/core/logger.js:244-270 | the two listeners are added once; later calls add nothing |
| Logging.Logger.OnWindowError | scripts/core/logger.js:247-258 | an uncaught error is logged at error level with its details, the breadcrumb trail and the session id |
| Logging.Logger.OnRejection | scripts/core/logger.js:260-267 | an unhandled rejection is logged at error level with its reason, the breadcrumb trail and the session id |

## Left out

- Rendering, the DOM and three.js objects are not modelled: meshes, the scene, the HUD, `engine.js`, `main.js`, pointer-lock controls and `createMesh`. `levelLoader.js` is not part of this model.
- Floating point is modelled as exact reals: IEEE rounding, `NaN` and `undefined` arithmetic (for example `player.health` read from a vector) are not modelled.
- Square roots are inputs rather than computations: the enemy's planar distance to its target, `1/√2` for diagonal movement, and the collision step count, which is characterised by squares.
- The camera is opaque. Its right and back axes and the aim direction are given vectors, and the sign convention of `translateX`/`translateZ` is taken as given.
- Player.PlayerController.Update: one `now` stamps both the new shot and the projectile pass, where the source reads the clock twice.
- Spawner.EnemySpawner.Update: one clock reading, `d.now`, stamps the spawn's `trackSpawn` and every `trackKill` of the update, where the source reads `performance.now()` in each call.
- Logging.Logger.Log: one `fallbackTime` stamps every console warning about a throwing sink, where the source reads `new Date()` for each warning.
- Player.PlayerController.UpdateProjectiles: the spliced enemy list is returned as a value rather than mutated in place, so aliasing with the scheduler's list is not captured.
- Player.PlayerController.constructor: requires `fireRate > 0` and `maxSpeed >= 0`, which the source does not check.
- Spawner.EnemySpawner.constructor: requires difficulty settings with `0 < minModifier <= 1 <= maxModifier` and `0 <= smoothing <= 1`, which the source does not check. Under them the modifier starts inside its bounds and stays positive, so `applyToWave` never divides by zero.
- The spawner's enemies are abstract records. Their per-tick behaviour is the parameter `advance`, because `Enemy` itself has no `killRecorded`, `deathTimer`, `id` or `config`, and `enemy.update` is handed the player position and the obstacles, which `Enemy` ignores.
- The spawner's callbacks (`setCallbacks`) are recorded as a list of events rather than called.
- Spawner.EnemySpawner.SpawnEnemy: the abstract enemy has no `config.combat`, so `trackSpawn` never sets the ammo baseline from a spawn.
- Difficulty.DifficultyController.Update: the log notice is returned as a value. The rounded numbers in the logged context and the `waveContext` fields are not modelled.
- The I/O of the console, overlay and network sinks is not modelled: `createConsoleSink` formatting, the overlay DOM, and the asynchronous `fetch` with its console fallback. A network sink is modelled as never throwing synchronously.
- `generateSessionId` is a parameter.
- `JSON.stringify` is modelled for flat objects of primitives, with strings quoted but not escaped.
- A context that is truthy but not an object is not modelled: contexts are objects or absent.
- Objects are lists of properties in insertion order. JavaScript lists integer-like keys first, in ascending order, and that ordering of `Object.keys` and `JSON.stringify` is not modelled.
- In the projectile pass, an enemy missing from the snapshot of enemy states reads as a live enemy with health 0 at the origin. Every enemy the methods pass in is in the snapshot, so this default is never used by them.
- Player.PlayerController.UpdateProjectiles: the state of each enemy is stated through the number of hits it took, not through the order of the hits.

## Findings

| source | as written | input that shows it | evidently intended | confidence | as-written member | corrected member |
|---|---|---|---|---|---|---|
| scripts/enemy/enemySpawner.js:133-135 | `new Enemy(this.scene, spawnPoint, this.config, type)`, but `Enemy`'s constructor takes `(position, config)`, so `config` is the spawn point and reading `config.enemies.speed` throws | any spawn: a wave with a positive count, a spawn point, an expired spawn timer and a configured archetypes map | `new Enemy(spawnPoint, this.config)`: the enemy is created at the spawn point | high; not executed | Spawner.CreateEnemyInstanceAlwaysThrows | Spawner.CreateEnemyInstance |
