# Oryx Sanctuary Mini: the boss encounter, verified

A Dafny model of the boss fight in `game.cpp` (Diddy-Dungeon-Adventures).
The game has a player, one boss with 8000 health, and a store of boss
bullets that the boss fills with attack patterns. The model covers:

- the boss's sub-state machine: the phase clock, the random phase pick, the
  survival trigger, and the four branches (survival warning, survival, phase
  warning, active) with their timed exits;
- the six normal-phase emitters and the three survival interludes (knife wall,
  dense cross with side streams, miasma with poprocks and towers);
- the two end-of-frame sweeps over player bullets and boss bullets;
- health, the rate-limited contact damage, the void kill, the arena clamp,
  the outcome flags, the terminal freeze and the reset.

`main()` changes its locals and its function-local statics in place, frame by
frame, so the model is a class, `Game.GameState`, with those locals and statics
as fields. Each block of the frame is a method with a `modifies` clause, and
each loop of the source is a `while` loop with invariants. Each emitting loop
and each sweep is proved against a specification function of the state before
the call, kept in its own module (`Patterns`, `Lifecycle`); each branch of the
boss's sub-state machine is proved against a two-state predicate of
`Game.GameState` (`SurvivalWarningAdvanced`, `NormalAdvanced` and the like);
the reset methods state their new fields one by one:

| module | file | contents |
|---|---|---|
| `Geometry` | geometry.dfy | vectors, boxes, clamp, easing, `fmod` and angle distance, the injected `<cmath>` functions |
| `Projectiles` | projectiles.dfy | `Bullet`, `PlayerBullet`, construction, `update`, bounds, the removal rule |
| `Patterns` | patterns.dfy | what each emitter appends, and lemmas about counts, gaps and order |
| `Lifecycle` | lifecycle.dfy | what each sweep produces, and lemmas about order, shards and damage |
| `BossPhase` | bossphase.dfy | durations, thresholds, easing targets, motion curves, the phase pick |
| `Game` | game.dfy | `GameState` and one method per block of the frame |

Points of the source that are easy to misread:

- `nextThreshold` advances when a survival interlude *starts*, at the end of
  its warning (game.cpp:172), not when it ends.
- Player bullets do no damage only while `isSurvival` holds (game.cpp:413).
  During the survival warning they still hurt the boss.
- The knife wall's `setScale({0.6, 1.8})` (game.cpp:283) is more than a
  visual change: it scales the knife's global bounds, and hence its hitbox.
  The model gives each bullet a scale and applies it in `Projectiles.Bounds`.
- `resetGame` also puts the player and the boss back at their start
  positions (game.cpp:111-112).
- The phase-warning flag can stay set under a survival interlude. The
  branch priority hides it until the interlude ends, and the end of the
  interlude sets it again anyway (game.cpp:182).

## Model

| member | source | states |
|---|---|---|
| BossPhase.PhaseDuration | game.cpp:145 | a phase lasts a positive time: 6 s for the stream, 8 s otherwise |
| BossPhase.SurvivalThresholds | game.cpp:136 | the ratio test `hp / 8000 < 1 - 0.3 n` holds exactly when `hp < 8000 - 2400 n`; a boss with health left never meets threshold 4 or later |
| BossPhase.InterludeKeepsItsStage | game.cpp:164-177 | the stage chosen during the survival warning and the one chosen during survival are the same point, although `nextThreshold` advanced between them |
| BossPhase.StagingPoint | game.cpp:202-205 | every phase's staging point lies inside the arena |
| BossPhase.Draw | game.cpp:152 | `rand() % 6 + 1` is a phase in 1..6 |
| BossPhase.PickPhase | game.cpp:150-155 | the do-while pick returns a phase in 1..6 other than the current one; it is the first draw that differs, and every draw it skipped named the current phase |
| Game.GameState.constructor | game.cpp:65-73 | the start state: the invariant holds, the values of `resetGame`, all statics zero, the hit timer started now |
| Game.GameState.ResetGame | game.cpp:100-113 | health 1000 and 8000, both stores empty, six timers zero, five flags false, phase 1, threshold 1, both start positions; it modifies no other field |
| Game.GameState.ResetPools | game.cpp:101-104 | both health pools full and both stores empty |
| Game.GameState.ResetTimers | game.cpp:106 | the six timers at zero |
| Game.GameState.ResetFlags | game.cpp:107-109 | the five flags false, threshold 1, phase 1 |
| Game.GameState.PressReset | game.cpp:126-128 | R resets the encounter only when it is over; otherwise nothing changes |
| Game.GameState.CheckOutcome | game.cpp:433-434 | game over exactly when it was already over or health is at most 0; victory likewise for the boss; both can be set in one frame |
| Game.GameState.CheckSurvivalTrigger | game.cpp:136-141 | outside any interlude, a due threshold starts the survival warning, clears the store and zeroes the warning and survival spawn timers; otherwise nothing changes |
| Game.GameState.AdvancePatternClock | game.cpp:143-158 | outside survival the clock runs, during a phase warning too; at the phase's duration a different phase is drawn, the warning starts and both timers are zero; during survival nothing changes |
| Game.GameState.AdvanceBoss | game.cpp:161-234 | exactly one branch runs, by the priority survival warning, survival, phase warning, active; the sub-state invariant is kept |
| Game.GameState.AdvanceSurvivalWarning | game.cpp:161-173 | the warning timer runs and the boss eases toward the stage; at 2 s survival starts with its timers at zero and the threshold one higher |
| Game.GameState.AdvanceSurvival | game.cpp:174-185 | the survival timer runs and the boss eases toward its stage; at 15 s the phase warning starts, the store is cleared and the phase is unchanged |
| Game.GameState.AdvanceWarning | game.cpp:186-212 | the warning timer runs and the boss eases toward the staging point; at 2 s the phase goes live with the boss and spawn timers at zero |
| Game.GameState.AdvanceActive | game.cpp:213-234 | the boss timer runs; phases 1 and 5 ease to the centre, phase 4 eases its tracked centre toward the player (taking the boss's position on first use), the others follow their curves |
| Game.GameState.MovePlayer | game.cpp:237-242 | the player moves by 500 dt per held key |
| Game.GameState.FirePlayerShots | game.cpp:244-255 | the aimed shot, then the twelve spread shots, all leaving from the position at the start of the frame |
| Game.GameState.ClampPlayer | game.cpp:257-260 | the player's position becomes its clamp into the arena |
| Game.GameState.FireSpiral | game.cpp:353-358 | the spiral's rotation grows by 20 and its 12 shots are appended |
| Game.GameState.FireRain | game.cpp:361-364 | 12 drops are appended, using 24 draws |
| Game.GameState.FireGapRing | game.cpp:367-377 | the ring of phase-3 shots is appended, skipping the headings near the player's bearing |
| Game.GameState.FireCross | game.cpp:380-386 | the cross's rotation grows by 15 and its 6 fast/slow pairs are appended |
| Game.GameState.FireShotgun | game.cpp:389-395 | 7 shots around the player's bearing are appended |
| Game.GameState.FireStream | game.cpp:398-402 | 3 shots around the player's bearing are appended |
| Game.GameState.EmitNormal | game.cpp:349-406 | past 0.12 s on the spawn timer the phase's volley is appended and the timer takes the phase's reset value |
| Game.GameState.FireKnifeWall | game.cpp:278-285 | the knife wall of slots other than gS and gS + 1 is appended |
| Game.GameState.FireDenseCross | game.cpp:290-300 | the cross turns by 2 and its four arms of 33 flashes are appended |
| Game.GameState.FireSideStreams | game.cpp:303-309 | the four side streams are appended, using four draws |
| Game.GameState.FireMiasma | game.cpp:314-321 | the miasma turns by 2 and its four wobbling arms are appended |
| Game.GameState.FireTowers | game.cpp:336-343 | six shots from each of the four towers are appended, tower by tower |
| Game.GameState.EmitSurvival | game.cpp:263-348 | the interlude's pattern runs by threshold: knife wall at 2, dense cross at 3, miasma at 4 |
| Game.GameState.EmitKnifeWall | game.cpp:264-287 | outside the corridor health becomes 0; past 1.1 s a wall with a random gap is appended and the wall timer restarts |
| Game.GameState.EmitDenseCross | game.cpp:289-311 | past 0.08 s the dense cross and the side streams are appended and the spawn timer restarts |
| Game.GameState.EmitMiasma | game.cpp:313-347 | past 0.05 s the miasma fires, the poprock and tower timers gain the elapsed time and fire in turn, the towers turn by 2.5 |
| Game.GameState.EmitPoprock | game.cpp:323-330 | past 0.7 s on its timer a poprock at a drawn heading is appended and the timer restarts |
| Game.GameState.EmitTowers | game.cpp:332-345 | the towers turn by 2.5; past 0.65 s on their timer they fire and the timer restarts |
| Game.GameState.SweepPlayerBullets | game.cpp:410-421 | the store becomes the updated bullets that neither hit the boss nor left the arena, in order; the boss loses 15 per hit, nothing during survival |
| Game.GameState.SweepBullets | game.cpp:422-427 | the store becomes the kept bullets in order followed by all shards; at most one hit of 10 is taken, only when the hit timer shows more than 0.15 s, and then the timer restarts |
| Game.GameState.UpdateBoss | game.cpp:136-234 | the trigger, the clock and the sub-state branch keep the sub-state invariant |
| Game.GameState.UpdatePlayer | game.cpp:236-260 | the new position is the clamped move; the shots leave from the position before the move |
| Game.GameState.Emit | game.cpp:262-406 | no bullets during either warning; the phase emitter in an active phase; health is unchanged or 0 |
| Game.GameState.Resolve | game.cpp:408-434 | health pools only fall, the boss's not at all in survival, and the outcome flags record the pools |
| Game.GameState.ShootAndSweep | game.cpp:262-434 | from a live state, health pools only fall and the outcome flags record exactly whether a pool ran out |
| Game.GameState.Step | game.cpp:132-434 | a live frame keeps the state invariant; health pools only fall; the boss takes no damage in a frame that ends in survival |
| Game.GameState.Frame | game.cpp:126-132 | once the encounter is over and R is not pressed the frame changes nothing; a live frame only lowers the health pools |
| Geometry.OverlapsSymmetric | game.cpp:412 | box intersection does not depend on the order of the boxes |
| Geometry.Clamp | game.cpp:258-259 | the result lies in the range, and a value already in it is unchanged |
| Geometry.ClampToArena | game.cpp:257-260 | the player's circle ends inside the arena, and a position already inside is unchanged |
| Geometry.Rate | game.cpp:165 | each easing gain lies strictly between 0 and 1 |
| Geometry.EaseShrinksOffset | game.cpp:165 | an easing step leaves 1 - gain of the offset to the target, shrinks the squared distance by (1 - gain)^2, and lands on the target only from the target |
| Geometry.FMod360 | game.cpp:371 | C's `fmod(v, 360)` has the sign of v and magnitude below 360 |
| Geometry.Wrap360 | game.cpp:371 | the reduced angle lies in [0, 360) |
| Geometry.CircularDistance | game.cpp:371 | the short-way angle between headings lies in [0, 180] |
| Geometry.GapFilterIsCircularDistance | game.cpp:371 | the gap ring's `fmod` filter equals the circular distance between the heading and the bearing |
| Projectiles.NewBullet | game.cpp:22-33 | a new bullet starts where it was made, with age 0, and a bullet of speed 0 does not move |
| Projectiles.AdvanceDependsOnTotalTime | game.cpp:34-37 | after any sequence of updates a bullet is where the total elapsed time puts it |
| Projectiles.KeptBulletIsHarmless | game.cpp:422-426 | a kept bullet touches neither the player nor the outer margin and has time left |
| Projectiles.LifetimeExpiry | game.cpp:424 | a timed bullet expires at the first sweep after which it has lived its lifetime, not before |
| Projectiles.ShardBurst | game.cpp:423 | a burst is 12 shards at the poprock's position, none a poprock |
| Projectiles.NewPlayerBullet | game.cpp:43-51 | the shot starts at the player and moves 15 per frame toward the target, or stays put when the target is the start |
| Projectiles.PlayerSpread | game.cpp:250-253 | 12 shots, all leaving from the player, shot k flying along the offset 100 (cos 30k°, sin 30k°) at 15 units per frame as `sqrt` measures that offset, or resting if it measures 0 |
| Lifecycle.HealthAfterSweep | game.cpp:425 | a sweep takes 10 health or nothing, and takes it exactly when some bullet touches the player and the hit timer shows more than 0.15 s |
| Lifecycle.SweepDistributes | game.cpp:422-427 | the sweep of a split store is the sweep of each part, in order |
| Lifecycle.SurvivorsExact | game.cpp:422-427 | a bullet survives exactly when it is the update of a stored bullet whose fate is to be kept; the survivor count is the kept count |
| Lifecycle.SurvivorsAreClear | game.cpp:425-426 | no survivor touches the player or lies beyond the 150 margin |
| Lifecycle.ShardsAreBursts | game.cpp:423 | there are 12 shards per burst poprock, each at the position of one |
| Lifecycle.FatesPartitionStore | game.cpp:422-426 | every stored bullet meets exactly one of the six fates |
| Lifecycle.RemovedCount | game.cpp:422-427 | the removed bullets are those of the five removal fates |
| Lifecycle.RehitWindowAbsorbsSecondContact | game.cpp:425 | within 0.15 s of a hit, a second contact costs nothing |
| Lifecycle.BossHPAfterSweep | game.cpp:413 | the boss loses 15 per hit, and nothing during survival |
| Lifecycle.ShotSweepAccounts | game.cpp:410-421 | flying and hitting shots together are no more than the store; every flying shot is inside the arena and clear of the boss |
| Patterns.SpiralVolley | game.cpp:356-358 | 12 fresh ordinary bullets of radius 7 from the boss, speed 5, evenly spaced 30° apart starting at the rotation r |
| Patterns.RainVolley | game.cpp:362-364 | 12 ordinary radius-7 drops falling straight down (heading 90) from the row y = -20; drop k starts at x = draw 2k mod 1920 with speed 7 + (draw 2k + 1 mod 4) |
| Patterns.RainStartsAboveArena | game.cpp:363 | every drop starts at y = -20 inside the arena's width |
| Patterns.GapShots | game.cpp:370-377 | one radius-7, speed-16 shot from the boss per slot, at heading 10 × slot, flagged as a phase-3 shot, not a poprock, with no time limit |
| Patterns.GapShotsAppend | game.cpp:370-377 | firing one more slot appends its shot |
| Patterns.GapSlotsExact | game.cpp:370-371 | the ring fires exactly the open slots, each once, in increasing order |
| Patterns.GapRingAvoidsBearing | game.cpp:371 | heading 10 s is fired exactly when it is more than 15 degrees from the bearing |
| Patterns.GapRingHasGap | game.cpp:371 | some slot is always left out |
| Patterns.CrossSpokes | game.cpp:383-386 | n spokes fire 2 n bullets |
| Patterns.CrossVolley | game.cpp:383-386 | the cross fires 12 bullets |
| Patterns.CrossSpokesExact | game.cpp:383-386 | bullet k is the fast (even k) or slow (odd k) shot at heading 60 (k / 2) + r |
| Patterns.ShotgunFan | game.cpp:391-395 | 7 ordinary radius-25, speed-14 shots from the boss; the middle one is aimed at the player's bearing a and the others fan out 15° apart on either side |
| Patterns.StreamFan | game.cpp:400-402 | 3 ordinary radius-9, speed-14 shots from the boss; the middle one is aimed at the bearing a, the others 10° to either side |
| Patterns.PhaseVolley | game.cpp:353-404 | spiral, rain and cross fire 12, shotgun 7, stream 3; the gap ring's shots are phase-3 shots from the boss |
| Patterns.KnifeShots | game.cpp:279-285 | one knife per slot on the boss's row at x = 630 + 55 × slot, falling at speed 8, radius 15 scaled (0.6, 1.8); every knife of a slot below 12 lies inside the safe corridor |
| Patterns.KnifeShotsAppend | game.cpp:279-285 | firing one more slot appends its knife |
| Patterns.KnifeSlotsExact | game.cpp:279-280 | the fired slots are exactly those below n other than gS and gS + 1 |
| Patterns.KnifeWallLeavesTwoSlotGap | game.cpp:278-285 | with gS = rand() % 10 the wall fires exactly 10 of its 12 slots |
| Patterns.Arm | game.cpp:295-299 | 33 stationary radius-11 flashes with lifetime 0.12, flash k standing 60 + 35 k units from the centre along the arm's heading |
| Patterns.Arms | game.cpp:293-300 | n arms are 33 n bullets |
| Patterns.ArmsAreFlashes | game.cpp:297 | every bullet of the dense cross stands still and expires after 0.12 s |
| Patterns.SideSpawns | game.cpp:303 | four spawn points on the left, right, top and bottom edges in that order, each at a drawn offset within the edge's length, using draws cursor .. cursor + 3 |
| Patterns.SideStreams | game.cpp:303-309 | four ordinary radius-7, speed-7 shots, each starting on its edge and heading inward (0°, 180°, 90°, 270°) |
| Patterns.Miasma | game.cpp:317-321 | four ordinary radius-7, speed-7 shots from the boss, arm i at tR + 90 i plus the wobble 15 sin(5 t + i) |
| Patterns.Poprock | game.cpp:326 | a radius-15 poprock from the boss at speed 4 and heading draw mod 360, unscaled, with no time limit |
| Patterns.TowerFan | game.cpp:338-342 | six ordinary radius-9, speed-4.5 shots from the tower, 60° apart starting at the rotation towerR |
| Patterns.Towers | game.cpp:337-343 | n towers fire 6 n bullets |
| Patterns.TowerBurst | game.cpp:336-343 | the burst is 24 bullets |
| Patterns.TowersExact | game.cpp:337-343 | bullet k leaves tower k / 6 at heading 60 (k % 6) + towerR |

## Left out

- The window, view, event polling, Escape, drawing, colours, flicker and the HP bars (game.cpp:56-63, 116-125, 163, 176, 188-200, 428-431, 437-478): these are I/O and visuals of the graphics library.
- Single-precision rounding: positions, timers and health are `real`.
- `cos`, `sin`, `atan2` and `sqrt` are taken as arbitrary functions of a `Trig` value, so the motion curves and velocities are exact only up to them.
- The keyboard and mouse, and the `shootTimer`/`shotgunTimer` refire gates (game.cpp:238-255): they arrive as the booleans and the aim point of an `Input`.
- `sf::Clock`: `dt` and `now` are parameters of a frame; `hitTimer` is the time `lastHit` of its last restart.
- `srand`/`rand()`: the draws are a function from draw number to value, with a cursor for the draws used so far. The phase pick requires that the draws never settle on one phase for good (`BossPhase.Varies`). Without that the source's loop would not end either.
- `Bullet::isShard` is never set or read by the source and is not modelled.
- Shard colours copied from the poprock (game.cpp:423) are visual only.
- The order in which the two draws of a rain drop happen is unspecified in C++ (game.cpp:363). The model draws x first, then the speed.
- Projectiles.Bounds, Projectiles.PlayerBounds, Projectiles.PlayerBulletBounds: use the exact box of the circle, ±r on both axes. The graphics library draws each circle as a 30-point polygon at angles 12k° - 90°, whose box is ±r vertically but only ±r·sin 84° (about ±0.9945 r) horizontally (game.cpp:412, 425). Shapes whose boxes overlap along x by less than about 0.55 % of the sum of their half-widths count as touching in the model but not in the game.
- BossPhase.PhaseDuration: states only that the duration is positive; the values 6 and 8 are its definition, which AdvancePatternClock's contract uses.
- Patterns.CrossVolley, Patterns.TowerBurst, Patterns.Arms, Patterns.Towers, Patterns.CrossSpokes: state only their lengths; the bullets themselves are given by CrossSpokesExact, TowersExact and Arm.
- Game.GameState.UpdateBoss: states only the sub-state invariant; what each part does is stated by CheckSurvivalTrigger, AdvancePatternClock and AdvanceBoss.
- Game.GameState.Emit: states health and the warning cases only; the patterns are stated by EmitNormal and EmitSurvival.
- Game.GameState.Resolve, Game.GameState.ShootAndSweep, Game.GameState.Step: state the frame's invariant and monotone health only; the effect of each block is stated by the methods they call.
