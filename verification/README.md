# Wave-survival arcade game: the game-state machine

This project models the simulation core of a browser arcade game (`game.js`).
Enemies of three tiers spawn on the canvas edges once a second. They walk
toward the player and hurt the player on contact. The player kills them by
clicking on them. The state is the enemy list plus the counters `score`,
`wave`, `enemiesToSpawn`, `enemiesDefeated`, `player.life` and the flags
`gameOver`, `showWaveMessage` and `isSpawning`. Five callbacks change it:

- the spawn interval installed by `startWave`;
- `spawnEnemy`, which that interval calls;
- the per-frame `update`;
- the timeout that ends the "get ready" message;
- the click handler.

Modules:

- `Tiers` (tiers.dfy): the tier table and the cumulative-chance loop that
  picks a tier from a draw.
- `Enemies` (enemies.dfy): the enemy record and how a new enemy is placed
  on an edge and given a speed.
- `Passes` (passes.dfy): the two `forEach` walks that `splice` enemies out
  while walking.
  - `Sweep` is their recursive meaning.
  - `Fates` is a one-enemy-at-a-time reference view of the same walk.
    It shows that the enemy shifted into a removed enemy's index is never
    looked at in that pass.
- `SpawnTimers` (spawn_timer.dfy): the spawn interval as a counter and a
  cleared flag, and the wave quota.
- `GameState` (game.dfy): class `Game`.
  - Its fields are the game's globals.
  - Its methods are the callbacks, each proved against the functions above.
  - `Valid()` is the invariant every callback keeps.

Geometry, randomness and timers are supplied from outside:

- Movement is a caller-supplied `advance: Enemy -> Pos`.
- The player-contact test and the click test are caller-supplied predicates
  (`touches`, `hit`).
- Each `Math.random()` draw is a `real` parameter.
- The interval and timeout firings are the explicit methods `SpawnTick` and
  `EndWaveMessage`.
- The canvas size is given to the constructor.

## Model

| member | source | states |
|---|---|---|
| `Tiers.SelectTier` | game.js:45-55 | The returned index is a valid tier. When some running total of chances is at least the draw, it is the first such tier. When none is, it is tier 0. |
| `Tiers.TierForUnique` | game.js:47-55 | The draw and the table determine the selected tier uniquely. |
| `Tiers.StandardTierBands` | game.js:28-32 | For the shipped table the chances sum to 1. Draws up to 0.8 select tier 0, up to 0.97 tier 1, up to 1.0 tier 2. Anything above 1.0 falls back to tier 0. |
| `Enemies.SpawnEdge` | game.js:57 | For a draw in [0, 1) the edge is one of 0..3. |
| `Enemies.SpawnPoint` | game.js:58-71 | A new enemy always lies on the border of the canvas. For in-range draws it lies within the canvas. |
| `Enemies.SpawnSpeed` | game.js:80 | A new enemy's speed lies in [1, 2.5) for a draw in [0, 1). |
| `Enemies.TableTiersLive` | game.js:73-82 | An enemy built from any tier of the table has hit points (`hp == maxHp > 0`) and positive damage and points. |
| `Passes.Sweep` | game.js:109-122 | One pass of `forEach` with `splice`. Every enemy of the list ends up either in the remaining list or in the removed list. |
| `Passes.DamageOf` | game.js:118 | Removed enemies with non-negative damage take a non-negative total from life. |
| `Passes.PointsOf` | game.js:150 | Removed enemies with non-negative points add a non-negative total to the score. |
| `Passes.FateAt` | game.js:119 | An enemy is skipped (not moved, not tested) exactly when the enemy before it was just spliced out. Otherwise it is examined, and it is removed exactly when its own test says so. |
| `Passes.SweepFollowsFates` | game.js:109-122 | The splice-while-walking pass keeps and removes exactly what the per-enemy reference says, in list order: examined survivors in their updated form, skipped enemies unchanged. |
| `Passes.RemovedForCause` | game.js:114-121 | A contact pass removes only enemies that touch the player after moving. A click pass removes only enemies left with `hp <= 0`. |
| `Passes.SweepKeepsLive` | game.js:148-153 | Both passes keep every remaining enemy alive (`0 < hp <= maxHp`). Every removed enemy carries positive damage and points. |
| `Passes.MissedClickKeepsAll` | game.js:146-147 | A click that hits no enemy changes nothing in the list and removes nothing. |
| `Passes.AdjacentContactsOneRemoved` | game.js:109-121 | Two adjacent enemies touching in the same frame: only the first is removed. The second shifts into its index and survives unmoved. |
| `SpawnTimers.WaveQuota` | game.js:87 | The quota of every wave from 1 on is at least 15. |
| `SpawnTimers.TicksFrom` | game.js:92-99 | From an active timer that has spawned `k` of the quota, `n` more firings spawn up to the quota. The interval is cleared exactly when the firings exceed what remained. |
| `SpawnTimers.WaveSpawnsQuota` | game.js:91-99 | A freshly started interval spawns exactly `Min(n, quota)` in `n` firings. It is cleared by firing `quota + 1`, having spawned the whole quota. |
| `GameState.Game.constructor` | game.js:20-40 | The initial globals, then `startWave()`. Wave 1 has quota 15, life is 15, the list is empty and the state is `Valid()`. |
| `GameState.Game.SpawnEnemy` | game.js:42-83 | A no-op when the game is over. Otherwise it appends exactly one enemy and keeps the earlier ones. The new enemy is built from the selected tier, the drawn edge point and the drawn speed. |
| `GameState.Game.StartWave` | game.js:85-90 | Sets `isSpawning`, the quota `15 + (wave-1)*3` and `enemiesDefeated = 0`, empties the list and installs a fresh interval. |
| `GameState.Game.SpawnTick` | game.js:92-99 | Advances the interval as `Tick`. It spawns one enemy exactly when fewer than the quota have been spawned and the game is not over. The list is otherwise unchanged and `Valid()` is kept. |
| `GameState.Game.Update` | game.js:106-137 | With the game over, nothing changes. Otherwise: the list becomes the contact pass's result, life drops by the removed enemies' damage, and `enemiesDefeated` grows by their number. `gameOver` becomes `life <= 0`. The wave advances by exactly 1, setting `showWaveMessage`, only if the quota is met, the game is not over and no message is showing. An advance happens only with the list empty and the whole quota spawned and defeated. Life never rises and `gameOver` never resets. |
| `GameState.Game.ContactPass` | game.js:109-122 | The `forEach` of `update`. It visits each index of the list as it was at the start, while that index is still inside the shrinking list. It leaves exactly `Sweep`'s remaining list and charges exactly the removed enemies' damage and count. |
| `GameState.Game.ContactVisit` | game.js:110-121 | The callback at one index. It moves the enemy in place. If the moved enemy touches the player, it subtracts that enemy's damage from life, splices it out and counts one defeat. Otherwise only the position changes. |
| `GameState.Game.EndWaveMessage` | game.js:132-135 | Clears `showWaveMessage` and starts the wave with the new wave's quota, keeping `Valid()`. |
| `GameState.Game.Click` | game.js:139-156 | With the game over, nothing changes. Otherwise: the list becomes the click pass's result, the score grows by the removed enemies' points, and `enemiesDefeated` grows by their number. The score never falls. A click that hits nothing changes no state. |
| `GameState.Game.HitPass` | game.js:146-155 | The `forEach` of the click handler, walked the same way. It leaves exactly `Sweep`'s remaining list and pays exactly the removed enemies' points and count. |
| `GameState.Game.HitVisit` | game.js:147-154 | The callback at one index. An enemy under the click loses exactly 1 hp in place. If its hp is then `<= 0`, it adds its points to the score, is spliced out and counts one defeat. An enemy not under the click is untouched. |

## Left out

- Movement by `atan2`/`cos`/`sin` and the `Math.hypot` distance tests (game.js:102-104, 110-116, 147) are floating-point geometry. Movement is a caller-supplied position function and the tests are caller-supplied predicates.
- Chances and draws are exact `real`s, so floating-point rounding of the running total is not modelled. The tier-0 fallback is reachable in the model only for draws above 1.0.
- `setInterval`, `setTimeout`, `clearInterval` and `requestAnimationFrame` are host timers. They are the explicit methods `SpawnTick` and `EndWaveMessage`, whose preconditions say their timer is pending. `gameLoop` (game.js:223-227) is not modelled.
- `GameState.Game.StartWave`: the source creates a new interval each time and leaves any earlier one running until it clears itself. The model keeps one interval and replaces it. In the source an earlier wave's interval makes its final, clearing firing one second after its last spawn, which is before the two-second message ends. Interleavings that rely on time are not represented.
- `draw`, the canvas, cursor and image loading, and the `getBoundingClientRect` click-coordinate conversion (game.js:1-18, 142-144, 158-221) are rendering and DOM code.
- The player's position, radius and `maxLife` only enter through the geometry and the health bar. `maxLife` appears as the bound `MaxLife` on life.
- Boss logic, the boss kill bonus and audio are not part of `game.js`, so they are not modelled.
