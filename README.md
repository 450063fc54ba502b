# Easter-egg games, modelled in Dafny

The studio site hides three small games. This project models their logic and
proves what the games promise about it.

- **Runner Pro** (`runner-pro/GamePro.tsx`, `runner-pro/map.ts`) is a tile
  platformer. A 40-px player runs, jumps and dashes across a 40×20 tile
  map, collects coins, captures checkpoints and fights patrolling enemies. A
  600 ms invulnerability window follows every hit taken. The run finishes on
  the finish tile once no coin is left.
- **KinoSet** (`cinema/Game.tsx`, `cinema/map.ts`) is a top-down stealth
  game. A 42-px camera cart collects "shots" and batteries in a 30×18 hall.
  Its battery drains over time and with every boost. A noise meter rises
  inside red zones and inside the hearing cone of a patrolling guard. The
  shift ends when every shot is taken, the battery is empty or the noise
  reaches 100.
- **Producer simulator** (`easter-egg/Game.tsx`) is a three-stage choice
  game (pre-production, shoot, post). It sums picked choices, niche and
  difficulty modifiers and random events into picture/time/money scores,
  and gives a verdict at the end.

Layout, one module per file:

- `engine.dfy` (`Engine`) holds the primitives both arcade games define for
  themselves. These are clamp, the pixel-to-tile floor, the closed-world
  `solidAt` over a flat `y*w + x` grid, the camera target and follow, the
  wheel zoom, the capped frame step, `Math.round`, and the `Set` of
  `"x,y"` keys built from a tile list.
- `runner_level.dfy` (`RunnerLevel`) and `cinema_level.dfy` (`CinemaLevel`)
  hold the level records and a well-formedness predicate for each. Each
  shipped level comes with the proof that it is well formed. The
  array-filling builder of Runner Pro's `solids` is kept as loops over an
  `array`.
- `runner.dfy` (`Runner`) and `cinema.dfy` (`Cinema`) split each game into
  two parts:
  - pure functions for each piece of a frame;
  - a `Session` class whose fields are the closure variables of the
    game's effect and whose methods update them in the order `update` does.
  Each `Session` keeps an invariant `Valid()`:
  - the player stays inside the world;
  - hit points and meters stay in range;
  - pickups only ever disappear;
  - runtime enemies and guards stay consistent with the level.
- `producer.dfy` (`Producer`) models the React state as a `Game` record.
  The setters become whole-value transitions. `totals` and `verdict` become
  methods, since they update locals step by step.

Positions and meters are exact `real`s. Every comparison in the source is
kept as written. JavaScript's `Math.floor` and `Math.round` are written out
as `.Floor` and `floor(x + 0.5)`.

Where the games' stated intent and the code differ, the model follows
the code:

- A Runner Pro dash pushes along the sign of the horizontal intent
  (`ax >= 0` goes right). It does not push along a facing direction; the
  runner has none.
- In Runner Pro a downward move that is not stopped clears `onGround`. The
  flag is not only set on a stopped downward move.
- KinoSet reads no "down" key. The keyboard's vertical intent is `-1` or
  `0`, and only the stick can push down.
- KinoSet's stick is inverted vertically. Both games take the stick's `dy`
  as the touch's `y` minus the drag origin, so pulling up gives a negative
  `dy` (`runner-pro/GamePro.tsx:50`, `cinema/Game.tsx:46`). Runner Pro
  jumps on `dy < -0.6`, so up means up. KinoSet adds `-dy * 0.8` to the
  vertical intent (`cinema/Game.tsx:175`), where ↑ gives `-1`, so pulling
  the stick up steers the cart down.
- The Producer simulator's hint under the niche and difficulty buttons
  (`Game.tsx:262`) says that changing them resets progress. `setNiche` and
  `setDiff` (`Game.tsx:233`, `Game.tsx:252`) only set the one field, and the
  buttons stay active after the start. `SetNiche` and `SetDiff` model the
  code: nothing else changes.

## Model

| member | source | states |
|---|---|---|
| Engine.Clamp | src/app/easter-egg/runner-pro/GamePro.tsx:11 | inside a non-empty range the result lies in the range; it is the value itself when that already lies in it, otherwise the nearer bound |
| Engine.TileOf | src/app/easter-egg/runner-pro/GamePro.tsx:182-183 | the tile index is the one whose 64-px span holds the pixel |
| Engine.TileOfUnique | src/app/easter-egg/runner-pro/GamePro.tsx:182-183 | that tile is unique: any tile whose span holds the pixel is the floored one |
| Engine.CellIndexInRange | src/app/easter-egg/runner-pro/GamePro.tsx:184-185 | the flat index `cy*w + cx` of an in-grid cell is a valid index of a `w*h` grid |
| Engine.SolidAtTile | src/app/easter-egg/runner-pro/GamePro.tsx:181-186 | every pixel of a tile's square gets the same solid answer as the tile |
| Engine.OutsideWorldIsSolid | src/app/easter-egg/runner-pro/GamePro.tsx:184 | the world is closed: every pixel outside `[0, w*64) × [0, h*64)` is solid |
| Engine.EmptyGridSolidAt | src/app/easter-egg/cinema/Game.tsx:157-161 | on a grid without walls a pixel is solid exactly when it lies outside the world |
| Engine.CameraTarget | src/app/easter-egg/runner-pro/GamePro.tsx:342-348 | the target lies in `[0, max(0, world - view)]`; it is the centred position when that fits, 0 when the centred position is negative, the far bound `max(0, world - view)` when it overshoots, and 0 when the world is narrower than the view |
| Engine.CameraFollow | src/app/easter-egg/runner-pro/GamePro.tsx:349-350 | the new camera lies between the old camera and the target, and the remaining distance shrinks to exactly 88% |
| Engine.FrameDt | src/app/easter-egg/runner-pro/GamePro.tsx:472 | the step never exceeds 33 ms; below the cap it is the elapsed time and above it exactly 33 ms; it is non-negative for a monotone clock |
| Engine.ZoomStep | src/app/easter-egg/runner-pro/GamePro.tsx:133-137 | the zoom stays inside the allowed range; it is the ±10% step when that fits, the lower bound when the step falls below it and the upper bound when it rises above it |
| Engine.Round | src/app/easter-egg/cinema/Game.tsx:373-374 | `Math.round` lands within half a unit of its argument, halves going up |
| Engine.RoundPercent | src/app/easter-egg/cinema/Game.tsx:367-368 | a percentage in `[0, 100]` rounds into `0..100` |
| Engine.KeySet | src/app/easter-egg/runner-pro/GamePro.tsx:174 | the set holds exactly the listed tiles; a list without repeats gives a set of the same size |
| RunnerLevel.Level1Solids | src/app/easter-egg/runner-pro/map.ts:17-29 | the reference bitmap has `40*20` entries |
| RunnerLevel.FillFloor | src/app/easter-egg/runner-pro/map.ts:20 | the floor loop sets exactly both bottom rows, leaving the rest as it was |
| RunnerLevel.FillColumns | src/app/easter-egg/runner-pro/map.ts:22 | the column loop sets exactly columns 10, 22 and 30 on the four rows above the floor |
| RunnerLevel.FillPlateaus | src/app/easter-egg/runner-pro/map.ts:24-25 | the two plateau loops set exactly row 12 over columns 14..18 and row 10 over columns 24..27 |
| RunnerLevel.BuildLevel1Solids | src/app/easter-egg/runner-pro/map.ts:17-29 | the builder's array is, cell by cell, the reference bitmap (floor, columns, plateaus, stair) |
| RunnerLevel.FinishedBuildIsLevel1 | src/app/easter-egg/runner-pro/map.ts:17-29 | once every loop has finished and the stair is set, the written cells are exactly the reference bitmap's solids |
| RunnerLevel.Level1At | src/app/easter-egg/runner-pro/map.ts:17-29 | reading level1's grid at an in-grid tile gives the reference definition's cell |
| RunnerLevel.Level1FloorSolid | src/app/easter-egg/runner-pro/map.ts:20 | the two bottom rows are solid across the full width |
| RunnerLevel.Level1GridShaped | src/app/easter-egg/runner-pro/map.ts:15-29 | level1's grid has `w*h` entries, each 0 or 1 |
| RunnerLevel.Level1PointsOpen | src/app/easter-egg/runner-pro/map.ts:30-41 | every coin and every checkpoint of level1 sits on an open in-grid tile |
| RunnerLevel.Level1CoinsDistinct | src/app/easter-egg/runner-pro/map.ts:30-35 | no coin tile is listed twice, so the coin `Set` holds all ten |
| RunnerLevel.Level1WellFormed | src/app/easter-egg/runner-pro/map.ts:14-44 | level1 meets everything the game relies on: grid shape, open spawn/finish/coins/checkpoints, enemies inside their bounds, distinct coins |
| Runner.MoveX | src/app/easter-egg/runner-pro/GamePro.tsx:193-209 | the box stays inside the world; it is blocked exactly when the leading edge's top or bottom sample is solid; a blocked move stops the velocity and snaps to the tile boundary it ran into (the hit tile's left edge minus the box and the 0.01 skin going right, the next tile's left edge plus the skin going left), clamped to the world; an unblocked one keeps the velocity and lands on the clamped candidate |
| Runner.MoveY | src/app/easter-egg/runner-pro/GamePro.tsx:211-230 | the same on the vertical axis with the left and right samples, snapping to the hit tile's top edge going down and the next tile's top edge going up; a downward move sets `onGround` exactly when it is stopped, and rising or resting leaves the flag alone |
| Runner.OverlapIffCommonPoint | src/app/easter-egg/runner-pro/GamePro.tsx:188-189 | `aabb` holds exactly when the two boxes share an interior point |
| Runner.Patrol | src/app/easter-egg/runner-pro/GamePro.tsx:321-330 | a dead enemy is unchanged; a live one stays within `[left, right]`, reverses at a bound it passes and otherwise walks `dir*speed*dt`; only `x` and `dir` change |
| Runner.SpawnEnemy | src/app/easter-egg/runner-pro/GamePro.tsx:164-172 | a new enemy sits at the entry's tile position scaled to pixels, with the entry's bounds scaled likewise; it is alive and walks right at 120 px/s |
| Runner.SpawnEnemyOk | src/app/easter-egg/runner-pro/GamePro.tsx:164-172 | a freshly spawned enemy meets the session's enemy invariant |
| Runner.Hit | src/app/easter-egg/runner-pro/GamePro.tsx:233-246 | inside the 600 ms window nothing changes; otherwise the window restarts at `now` and one point is lost, with 0 refilled to 3; hit points stay in `[1, 3]` |
| Runner.NoHitsInsideWindow | src/app/easter-egg/runner-pro/GamePro.tsx:234 | contacts that all fall inside the open window cost nothing |
| Runner.AtMostOneHitPerWindow | src/app/easter-egg/runner-pro/GamePro.tsx:233-246 | however many contacts fall within one 600 ms span, at most one costs a hit point |
| Runner.Resolve | src/app/easter-egg/runner-pro/GamePro.tsx:320-338 | an enemy patrols, and it dies exactly when it was alive and the player swings while touching it |
| Runner.HitThenSafe | src/app/easter-egg/runner-pro/GamePro.tsx:234-235 | after a hit at `now` a second contact at the same instant is free, so the hit is idempotent |
| Runner.OpenCellInWorld | src/app/easter-egg/runner-pro/GamePro.tsx:142 | a player box placed on an open tile lies inside the world |
| Runner.RespawnInWorld | src/app/easter-egg/runner-pro/GamePro.tsx:240-241 | respawning at the spawn or any checkpoint keeps the player inside the world |
| Runner.ReadControls | src/app/easter-egg/runner-pro/GamePro.tsx:270-289 | the intent is right minus left plus the active stick's `dx` (opposite keys cancel, the keyboard alone stays in `[-1, 1]`); a jump is ↑/W or the stick past -0.6; X dashes and Z hits |
| Runner.Session.constructor | src/app/easter-egg/runner-pro/GamePro.tsx:140-178 | the initial state: player at the spawn at rest with 3 hit points, every coin present, checkpoint at the spawn, one enemy per entry, the invariant established |
| Runner.Session.KeyDown | src/app/easter-egg/runner-pro/GamePro.tsx:119-124 | the key is held afterwards, and `p` toggles the pause |
| Runner.Session.KeyUp | src/app/easter-egg/runner-pro/GamePro.tsx:125-127 | the key is no longer held |
| Runner.Session.Wheel | src/app/easter-egg/runner-pro/GamePro.tsx:133-137 | one zoom step inside `[0.6, 2]`; the invariant is kept |
| Runner.Session.ApplyInput | src/app/easter-egg/runner-pro/GamePro.tsx:281-299 | acceleration then friction; gravity, or the jump from the ground only; the dash only with its timer run out; the cooldown tick; the new motion is `Input` of the old one |
| Runner.Session.MoveAndCollide | src/app/easter-egg/runner-pro/GamePro.tsx:192-231 | X first, then Y at the new X, as `MoveX` and `MoveY` state (`Move` of the old body); the player stays in the world |
| Runner.Session.Respawn | src/app/easter-egg/runner-pro/GamePro.tsx:238-245 | back at the checkpoint, at rest, with full hit points, still inside the world |
| Runner.Session.Damage | src/app/easter-egg/runner-pro/GamePro.tsx:233-246 | hit points and window follow `Hit`; the player is moved only when the hit empties the hit points |
| Runner.Session.PickCoin | src/app/easter-egg/runner-pro/GamePro.tsx:304-311 | a coin at the tile is removed and counted once; counter plus coins left stays the level's total |
| Runner.Session.CaptureCheckpoint | src/app/easter-egg/runner-pro/GamePro.tsx:313-315 | standing on a listed checkpoint makes it the respawn point; elsewhere the respawn point is kept |
| Runner.Session.CheckFinish | src/app/easter-egg/runner-pro/GamePro.tsx:317 | the run finishes exactly on the finish tile with no coin left, and stays finished |
| Runner.Session.Collect | src/app/easter-egg/runner-pro/GamePro.tsx:303-317 | coin, checkpoint and finish at the centre tile, in that order |
| Runner.Session.MeetEnemy | src/app/easter-egg/runner-pro/GamePro.tsx:320-338 | one enemy resolved as `Resolve` states; an unswung touch costs a `Hit`; nothing else changes |
| Runner.Session.UpdateEnemies | src/app/easter-egg/runner-pro/GamePro.tsx:319-339 | every enemy resolved in place; the frame costs exactly one `Hit` if some enemy touched an unswinging player and nothing otherwise, however many enemies touch |
| Runner.Session.FollowCamera | src/app/easter-egg/runner-pro/GamePro.tsx:341-350 | the camera moves 12% of the way to the clamped target on each axis |
| Runner.Session.Advance | src/app/easter-egg/runner-pro/GamePro.tsx:268-301 | the new body is `Advanced`: `Input` applied to the motion, then `Move`; the invariant holds |
| Runner.Session.Threats | src/app/easter-egg/runner-pro/GamePro.tsx:319-350 | every enemy is resolved against the player's position; exactly one `Hit` is taken when some enemy touched an unswinging player and none otherwise; a fatal hit sends the player, at rest, to the checkpoint and otherwise the player is not moved; the camera then moves 12% toward the target of the final position; the invariant holds |
| Runner.Session.Update | src/app/easter-egg/runner-pro/GamePro.tsx:268-351 | coins only disappear and the counter grows by exactly as many; a finished run stays finished; dead enemies stay dead and unchanged; at most one hit point is lost per frame; the camera moves 12% toward the target of the final position; the invariant holds |
| Runner.Session.Step | src/app/easter-egg/runner-pro/GamePro.tsx:471-477 | a paused or finished game changes nothing but the clock; pause, keys and zoom are untouched; a running frame keeps `Update`'s promises: coins only disappear and are counted one for one, dead enemies stay dead, at most one hit point is lost, and the camera follows the final position |
| CinemaLevel.KinoLevelWellFormed | src/app/easter-egg/cinema/map.ts:27-62 | the hall is well formed: every listed tile inside it, zones inside the world, distinct non-overlapping shots and batteries, a guard whose path starts where it stands |
| CinemaLevel.KinoSolidIffOutside | src/app/easter-egg/cinema/map.ts:30 | the hall has no inner wall: a pixel is solid exactly outside the world |
| Cinema.CollideOnOpenGrid | src/app/easter-egg/cinema/Game.tsx:162-163 | without walls the box collides exactly when one of its corners leaves the world |
| Cinema.KinoSpawnClear | src/app/easter-egg/cinema/map.ts:31 | the cart's box at the spawn tile is clear |
| Cinema.MoveX | src/app/easter-egg/cinema/Game.tsx:196-199 | the clamped candidate is taken exactly when the box there is clear, otherwise `x` is kept; the box stays in bounds and never enters a wall |
| Cinema.MoveY | src/app/easter-egg/cinema/Game.tsx:197-200 | the same vertically, at the already moved `x` |
| Cinema.KinoMoveUnblocked | src/app/easter-egg/cinema/Game.tsx:196-200 | in the shipped hall each axis always lands on its clamped candidate |
| Cinema.ReadIntent | src/app/easter-egg/cinema/Game.tsx:168-175 | the horizontal intent is right minus left plus the active stick's `dx`; the vertical intent is -1 for ↑/W minus 0.8 of the active stick's `dy`; opposite keys cancel and the keyboard alone stays in `[-1, 1]`; space boosts |
| Cinema.NoDownKey | src/app/easter-egg/cinema/Game.tsx:168-175 | holding ↓ or S changes nothing, and the keyboard never steers down |
| Cinema.Facing | src/app/easter-egg/cinema/Game.tsx:177-178 | facing follows the sign of a non-zero intent, is kept at zero, and stays ±1 |
| Cinema.Drain | src/app/easter-egg/cinema/Game.tsx:203 | the battery loses `1.1*dt` and never goes negative |
| Cinema.Recharge | src/app/easter-egg/cinema/Game.tsx:244 | a pickup adds 25 when that stays within 100 and gives exactly 100 otherwise; it never lowers the meter |
| Cinema.ZonesHolding | src/app/easter-egg/cinema/Game.tsx:206-210 | at most as many zones hold the point as there are zones; the count is 0 exactly when no zone holds it and full exactly when every zone does |
| Cinema.BumpTimesClosed | src/app/easter-egg/cinema/Game.tsx:209 | `k` capped increments equal one capped sum, so noise stays in `[0, 100]` and never falls |
| Cinema.KinoZonesApart | src/app/easter-egg/cinema/map.ts:33-36 | the two red zones are apart, so at most one adds noise per frame |
| Cinema.StartGuard | src/app/easter-egg/cinema/Game.tsx:145 | the runtime copy keeps the authored data and targets waypoint 1, or 0 on a one-point path |
| Cinema.StartGuards | src/app/easter-egg/cinema/Game.tsx:144-145 | one runtime copy per authored guard, in order |
| Cinema.GuardStep | src/app/easter-egg/cinema/Game.tsx:213-224 | a reached waypoint advances the target cyclically with the guard still; otherwise the guard walks `speed*dt` along its heading with the same target; the target stays a valid index |
| Cinema.AdvanceCycles | src/app/easter-egg/cinema/Game.tsx:219 | `k` reached waypoints move the target `k` places, wrapping once, and a full lap returns to the same waypoint |
| Cinema.AdvanceMod | src/app/easter-egg/cinema/Game.tsx:219 | any number `k` of reached waypoints moves the target to `(t + k) mod n`: the patrol cycles without bound |
| Cinema.NextIndex | src/app/easter-egg/cinema/Game.tsx:219 | `(t+1) % n` is the next index, wrapping from the last to 0 |
| Cinema.Hearing | src/app/easter-egg/cinema/Game.tsx:226-236 | at most as many guards hear the player as are counted |
| Cinema.HearingCounts | src/app/easter-egg/cinema/Game.tsx:226-236 | the count is 0 exactly when none of the guards hears the player and full exactly when all do |
| Cinema.HearingPrefix | src/app/easter-egg/cinema/Game.tsx:213-237 | the count over the first `n` guards depends on those guards alone |
| Cinema.Score | src/app/easter-egg/cinema/Game.tsx:371-374 | with meters in range the score lies within 100 below and 200 above the shots' worth, reaching the top on a full battery and silence |
| Cinema.OutcomeSplit | src/app/easter-egg/cinema/Game.tsx:247-250 | a success is a finished state, and a finished non-success ended through the battery or the noise |
| Cinema.Session.constructor | src/app/easter-egg/cinema/Game.tsx:126-147 | the initial state: the cart at the spawn at rest facing right, full battery, no noise, every shot and battery present, guards copied, the invariant established |
| Cinema.Session.KeyDown | src/app/easter-egg/cinema/Game.tsx:105-109 | the key is held afterwards |
| Cinema.Session.KeyUp | src/app/easter-egg/cinema/Game.tsx:110 | the key is no longer held |
| Cinema.Session.Wheel | src/app/easter-egg/cinema/Game.tsx:116-119 | one zoom step inside `[0.7, 2]`; the invariant is kept |
| Cinema.Session.Steer | src/app/easter-egg/cinema/Game.tsx:177-193 | facing, acceleration (vertical at 75%), friction, a boost that costs exactly 3% and pushes along the facing, the cooldown tick; meters and body stay in range |
| Cinema.Session.Move | src/app/easter-egg/cinema/Game.tsx:195-200 | X at the old Y, then Y at the new X, as `MoveX`/`MoveY` state; a cart clear of walls stays clear |
| Cinema.Session.DrainBattery | src/app/easter-egg/cinema/Game.tsx:203 | the battery drains as `Drain` states and stays a percentage |
| Cinema.Session.HearZones | src/app/easter-egg/cinema/Game.tsx:205-210 | noise rises by one capped `22*dt` step per zone holding the centre, and never falls |
| Cinema.Session.WatchGuard | src/app/easter-egg/cinema/Game.tsx:213-236 | one guard steps as `GuardStep` states, then adds one capped noise step if it hears the player |
| Cinema.Session.HearGuards | src/app/easter-egg/cinema/Game.tsx:212-237 | every guard steps; noise rises by one capped `35*dt` step per guard that hears the player after its move |
| Cinema.Session.Pickup | src/app/easter-egg/cinema/Game.tsx:239-244 | the shot and the battery at the centre tile are taken; a battery taken recharges the meter |
| Cinema.Session.Collect | src/app/easter-egg/cinema/Game.tsx:239-250 | the pickups, then `finished` is exactly "no shot left, battery empty or noise full" |
| Cinema.Session.FollowCamera | src/app/easter-egg/cinema/Game.tsx:252-257 | the camera moves 12% of the way to the clamped target |
| Cinema.Session.Advance | src/app/easter-egg/cinema/Game.tsx:166-203 | steering, move and drain keep the session invariant |
| Cinema.Session.Listen | src/app/easter-egg/cinema/Game.tsx:205-237 | every guard steps; the noise is the old noise bumped once (capped at 100) per zone holding the cart's centre and then once per guard hearing it; noise never falls |
| Cinema.Session.Update | src/app/easter-egg/cinema/Game.tsx:166-258 | the end flag is exactly the end condition; shots and batteries are only taken; noise never falls; every guard steps |
| Cinema.Session.Step | src/app/easter-egg/cinema/Game.tsx:392-398 | once finished nothing but the clock changes; otherwise the end flag matches the meters, shots and batteries are only taken, noise never falls, and every guard takes one `GuardStep` with the capped frame step |
| Cinema.Session.Outcome | src/app/easter-egg/cinema/Game.tsx:369-375 | `ok` is exactly a success; a failure ended through the battery or the noise; a success scores at least the shots' worth minus 100 |
| Cinema.SubsetCard | src/app/easter-egg/cinema/Game.tsx:366 | a subset is no larger, so the collected-shot count in the HUD is never negative |
| Cinema.StartReady | src/app/easter-egg/cinema/Game.tsx:127-145 | a well-formed level gives a spawn box inside the world and guard copies consistent with the authored guards |
| Cinema.SpawnInWorld | src/app/easter-egg/cinema/Game.tsx:128 | the spawn tile's corner lies inside `[0, world - 42]` on both axes |
| Producer.ModifiersRange | src/app/easter-egg/Game.tsx:26-36 | every niche and difficulty shifts the picture by 0 or +1 and time and money by at most 2; gadgets on normal shifts nothing |
| Producer.StagesShape | src/app/easter-egg/Game.tsx:41-69 | three stages `pre`, `shoot`, `post`, each with three choices whose ids are distinct and non-empty |
| Producer.Find | src/app/easter-egg/Game.tsx:124 | a found choice is in the list and carries the id; when none is found, no choice carries the id |
| Producer.FindDistinct | src/app/easter-egg/Game.tsx:124 | with distinct ids the `i`-th choice's id finds exactly that choice |
| Producer.SumPicks | src/app/easter-egg/Game.tsx:122-130 | the stage loop sums the picked choices' scores in stage order |
| Producer.Totals | src/app/easter-egg/Game.tsx:116-136 | `totals` is the picked sum plus the niche and difficulty modifiers, missing axes as 0 |
| Producer.PickedSumFrame | src/app/easter-egg/Game.tsx:122-130 | the picked sum depends only on what the stage keys hold |
| Producer.PickedSumNone | src/app/easter-egg/Game.tsx:122-130 | with no stage picked the choices add nothing |
| Producer.HiddenKeyIgnored | src/app/easter-egg/Game.tsx:153 | writing a key that names no stage (an event's `__id`) leaves the totals unchanged |
| Producer.NoPicksTotals | src/app/easter-egg/Game.tsx:116-136 | with every stage unpicked the totals are exactly the modifiers |
| Producer.TotalsByStage | src/app/easter-egg/Game.tsx:116-136 | the totals are the three stages' contributions, in order, plus the modifiers |
| Producer.FinishedIffNoStage | src/app/easter-egg/Game.tsx:138-139 | the game is finished exactly when there is no current stage |
| Producer.Choose | src/app/easter-egg/Game.tsx:171-173 | clicking the picked choice clears it and any other click picks it; no other key and nothing else changes |
| Producer.ChooseTwice | src/app/easter-egg/Game.tsx:172 | two identical clicks restore an empty or equal pick |
| Producer.ChooseScores | src/app/easter-egg/Game.tsx:171-173 | picking the `i`-th choice makes its stage contribute exactly that choice's score |
| Producer.ChooseKeepsOthers | src/app/easter-egg/Game.tsx:171-173 | a pick in one stage leaves every other stage's contribution as it was |
| Producer.Pool | src/app/easter-egg/Game.tsx:146 | the pool holds exactly the events tied to the stage key |
| Producer.PoolCount | src/app/easter-egg/Game.tsx:146 | each event tied to the key is kept as many times as it is listed, every other event is dropped |
| Producer.PoolAppend | src/app/easter-egg/Game.tsx:146 | the filter keeps the list's order: filtering a concatenation concatenates the filtered parts |
| Producer.PickIndex | src/app/easter-egg/Game.tsx:148 | `Math.floor(random * n)` is a valid index into the pool |
| Producer.Drawn | src/app/easter-egg/Game.tsx:142-148 | an event is drawn only below the 25% threshold, and it is one tied to the stage; below the threshold one is always drawn when the stage has any |
| Producer.EveryStageHasEvents | src/app/easter-egg/Game.tsx:76-81 | every stage key has at least one event |
| Producer.MaybeEvent | src/app/easter-egg/Game.tsx:142-160 | niche, difficulty and step stay; with no event drawn nothing changes, otherwise the drawn event is applied |
| Producer.EventShiftsGrand | src/app/easter-egg/Game.tsx:150-169 | an event adds one log line and moves `eventImpact` and `grand` by exactly its impact; no stage's pick changes |
| Producer.Next | src/app/easter-egg/Game.tsx:175-180 | the step moves on by one exactly when there is a current stage with a truthy pick, and then the game is `MaybeEvent` of that stage's key with the step advanced; otherwise nothing changes; a finished game is untouched; the step stays in `[0, 3]` |
| Producer.Back | src/app/easter-egg/Game.tsx:309 | the step goes down by one, never below 0, and nothing else changes |
| Producer.NextThenBack | src/app/easter-egg/Game.tsx:309 | going back after a step forward returns to the stage just left |
| Producer.ChooseThenNext | src/app/easter-egg/Game.tsx:171-180 | picking a choice of the current stage and pressing "next" always advances |
| Producer.Reset | src/app/easter-egg/Game.tsx:182-187 | back to the first stage with no pick, an empty log and no event impact; niche and difficulty stay |
| Producer.ResetGrand | src/app/easter-egg/Game.tsx:182-187 | after a reset `grand` is exactly the modifiers; a reset is idempotent and leaves the start state alone |
| Producer.SetNiche | src/app/easter-egg/Game.tsx:233 | the niche changes and nothing else does |
| Producer.SetDiff | src/app/easter-egg/Game.tsx:252 | the difficulty changes and nothing else does |
| Producer.ModifierSwitch | src/app/easter-egg/Game.tsx:165-169 | switching niche or difficulty moves `grand` by exactly the change in the modifiers |
| Producer.StepStaysInRange | src/app/easter-egg/Game.tsx:171-187 | every transition keeps the step in `[0, 3]`, and an event never moves it |
| Producer.ComputeVerdict | src/app/easter-egg/Game.tsx:190-213 | "time burning" exactly when time < -2; "risky" exactly when time ≥ -2 and the picture ≤ 2 or money < -3; "candy" exactly on picture ≥ 7, time ≥ 1 and money ≥ 0; "ready" otherwise; the note follows the niche |
| Producer.Decimal | src/app/easter-egg/Game.tsx:19 | a number's decimal spelling is non-empty, all digits and has no leading zero |
| Producer.DecimalRoundTrip | src/app/easter-egg/Game.tsx:19 | reading a decimal spelling back gives the number |
| Producer.Fmt | src/app/easter-egg/Game.tsx:19 | positives get a `+`, negatives a `-`, zero is `0` |
| Producer.FmtRoundTrip | src/app/easter-egg/Game.tsx:19 | `fmt` loses nothing: its output parses back to the number |
| Producer.FmtChars | src/app/easter-egg/Game.tsx:19 | `fmt` writes only signs and digits |
| Producer.ReadFieldOf | src/app/easter-egg/Game.tsx:358-365 | a label, a formatted number and a non-numeric tail read back as that number and tail |
| Producer.ImpactRoundTrip | src/app/easter-egg/Game.tsx:358-365 | `impactStr` spells picture, time and money in that order and loses none: the score reads back from the text |

## Left out

- Rendering, HUD text, banners, particles (`spark` and their update) and the canvas resize: display only.
- The virtual joystick's drag handling (capture and drag events): each frame sees only the stick's `(dx, dy, active)`, passed in as a parameter.
- Key lower-casing and `preventDefault`: key names arrive already lower-cased.
- The host clocks (`performance.now()`, the animation-frame timestamp) and the canvas view size: these are the parameters `now`, `viewW` and `viewH`. `damage()` reads the clock twice, and the model reads it once.
- `Math.random()` in the Producer simulator: it becomes the parameters `roll` and `pick`.
- KinoSet guard steering: the unit heading toward the waypoint (`Math.hypot`, a square root) and the view-arc cosine test are inputs (`Sense.heading`, `Sense.inArc`). The authored `arc` half-angle is therefore not part of the level record. The guard's unused `t` field is dropped.
- Cinema.Session.Step: requires a monotone clock (`last <= now`). A frame stamp earlier than the previous one gives a negative `dt`, which would push the battery above 100.
- Cinema.Session.Advance: promises only the session invariant; its effect is what `Steer`, `Move` and `DrainBattery` state.
- Runner.Session.Update: states the invariant, the camera step and the frame's consequences (coins only disappear and are counted, a finished run stays finished, dead enemies stay dead, at most one hit point is lost). The exact new body, coins, checkpoint, enemies and hit points are stated phase by phase by `Advance`, `Collect` and `Threats` but not composed into one postcondition; composed, the proof exceeds the verifier's resource budget.
- Runner.Session.Step: a running frame keeps `Update`'s promises, but the exact composed frame (the new body, coins, checkpoint, enemies and hit points as one function of the old state) is not stated, for the same reason as `Update`.
- Cinema.Session.Update: the cart's new position and meters are stated by `Steer`, `Move`, `DrainBattery` and `Collect`; the frame-level contract keeps only their consequences.
- Producer persistence to `localStorage` (load and save effects): storage I/O.
- Producer verdict texts: the title, tip and note strings are represented by the `Title` tag and the niche whose note is shown.
- Producer choice titles and descriptions: display text.
- React's batching of the setters inside `maybeEvent` and `next`: the model applies them in call order as one transition.
- The Producer's back button is only rendered while the game is not finished and `step > 0` (it sits inside the `!finished` branch); `Back` also covers `step = 0`, where it changes nothing, and the finished step 3, where the page offers no button.
- Cleanup of listeners and the animation frame on unmount: lifecycle only.
