# Bowlers and Boulders: the simulation core in Dafny

This project models the simulation core of the browser game *Bowlers and Boulders*. In the
game, an avatar climbs a curved slope while a bowler standing at the top throws boulders
down it. Boulders roll down the straight chord of the slope, and each wave is harder than
the last. A frame ends in one of three ways:

- a boulder touches the avatar, and the wave is lost;
- the avatar reaches 98% of the slope, and the wave is cleared;
- neither, and play goes on.

The model covers these subsystems, each with the entity it owns:

- `WaveManager` owns the wave index and its difficulty parameters.
- `ScoreTimer` owns the elapsed play time.
- `BowlerAnimator` owns the bowler's four-phase throw cadence.
- `BoulderSpawner` owns the live boulders: spawning, rolling, culling and collision.
- `PlayerController` owns the avatar's progress along the path, its eased climb rate, and its deferred jump and fall.
- `GameScene` owns the per-frame order that ties these together, plus scene start, `init` and `restart`.

Modules follow the source files. `Common` holds `Option`, the clamps and `Math.round`.
`Geometry` holds vectors, the slope record, and the chord and Bezier path points.

Each subsystem that mutates its own fields is a `class`. Its methods are proved against
pure specification functions such as `Step`, `Climb`, `Fall`, `Survivors` and
`CurrentParams`. Lemmas then state what those functions promise:

- a throw fires once per pass through the last phase;
- the climb rate eases toward its target and stays in [-1, 1];
- exactly the moved boulders above the cull line survive, in order;
- projection undoes the chord;
- every thrown boulder starts at the top of the slope;
- the path's end points are exact.

Two behaviours of the code are reproduced as written:

- **The jump key never reaches the avatar.** The scene passes the jump flag in the slot of the second key set, so the avatar's `jumpPressed` is always absent. The scene passes `false`, and `GameScene.GameScene.Update` proves that no jump wind-up is ever scheduled.
- **The timer spawn is effectively off.** The scene gives the spawner an interval of `Number.MAX_SAFE_INTEGER`, so in practice every boulder comes from the bowler's throws.

Four further behaviours of the code that the model keeps:

- The cadence signals only on entering its last phase. There is no per-phase signal.
- The collision centre is the sprite's position, which is drawn 10 px above the computed pose, so that lift is kept.
- The wave index lives in a registry entry that outlives the scene. The wave manager's `slot` field stands for that entry: the scene hands in its value at start, and the value the manager leaves stays readable afterwards.
- The registry slot reads as wave 1 when it is missing or zero.

## Model

| member | source | states |
|---|---|---|
| Common.Round | src/game/systems/BowlerAnimator.ts:44 | `Math.round` lands within half a unit of its argument and is a whole number |
| Geometry.DistSq | src/game/systems/BoulderSpawner.ts:50-51 | the squared distance between two centres, never negative; a hit compares it with the squared sum of the radii (with that sum non-negative), which `Geometry.SquaredCompare` shows is exact where the source compares the distance itself with the sum |
| Geometry.SquaredCompare | src/game/systems/BoulderSpawner.ts:50-51 | for a distance d ≥ 0 and a radius sum R: d ≤ R if and only if R ≥ 0 and d² ≤ R², so the squared test decides the same hits as the source's distance test |
| Geometry.ChordPoint | src/game/systems/BoulderSpawner.ts:98-101 | the point on the straight chord at clamped progress: exactly `bottom` at or below 0 and exactly `top` at or above 1 |
| Geometry.CurvePoint | src/game/systems/PlayerController.ts:167-211 | the avatar's path point. It is cubic when the slope is curved, typed cubic and all three cubic control points are present; quadratic when curved otherwise; the chord when straight. In every form it is exactly `bottom` at or below 0 and exactly `top` at or above 1 |
| Geometry.CubicAt | src/game/systems/PlayerController.ts:176-191 | the cubic Bezier starts at its first point and ends at its last; its Bernstein weights sum to one, so four equal points give that point back |
| Geometry.QuadraticAt | src/game/systems/PlayerController.ts:194-206 | the quadratic Bezier starts at its first point and ends at its last; its weights sum to one, so three equal points give that point back |
| Geometry.CurveClamps | src/game/systems/PlayerController.ts:167-171 | the path depends on progress only through its clamped value |
| Geometry.CubicIgnoresControl3 | src/game/systems/PlayerController.ts:173-189 | the third cubic control point must be present to select the cubic form, but it never moves the curve |
| Geometry.ProjectS | src/game/systems/BoulderSpawner.ts:88-89 | the projected progress is in [0, 1]: 0 when the point is at or behind `bottom` along the chord, 1 when it is at or beyond `top`, and otherwise that distance as a fraction of the chord's length |
| Geometry.ProjectChordPoint | src/game/systems/BoulderSpawner.ts:88-89 | projecting a chord point, moved any distance along the normal, gives back the clamped progress it came from |
| WaveManager.SpawnInterval | src/game/systems/WaveManager.ts:36-37 | the spawn interval never drops below 900 ms and, from wave 1 on, never exceeds 2200 ms |
| WaveManager.CurrentParams | src/game/systems/WaveManager.ts:35-40 | the wave parameters are the interval and multiplier of the index, with a wave duration of 0 |
| WaveManager.IntervalNonIncreasing | src/game/systems/WaveManager.ts:37 | a later wave never spawns less often |
| WaveManager.IntervalFloorFromWave11 | src/game/systems/WaveManager.ts:37 | the interval sits at its 900 ms floor if and only if the wave is 11 or later |
| WaveManager.SpeedStrictlyIncreasing | src/game/systems/WaveManager.ts:38 | wave 1 has multiplier 1, and every later wave is strictly faster |
| WaveManager.SpeedMultiplier | src/game/systems/WaveManager.ts:38 | the multiplier is 1 exactly at wave 1 and at least 1 from wave 1 on |
| WaveManager.ReadIndex | src/game/systems/WaveManager.ts:15-17 | a missing or zero registry entry reads as wave 1, any other value reads as itself, and the index is never 0 |
| WaveManager.WaveManager.constructor | src/game/systems/WaveManager.ts:11-13 | the manager reads the registry slot as it stands |
| WaveManager.WaveManager.Index | src/game/systems/WaveManager.ts:15-17 | the `index` getter (lines 31-33) is never 0: it is the stored value, or 1 when the entry is missing or 0 |
| WaveManager.WaveManager.Update | src/game/systems/WaveManager.ts:23-25 | time never changes the wave: `changed` is false, and the parameters are those of the current index, with an interval of at least 900 ms |
| WaveManager.WaveManager.NextWave | src/game/systems/WaveManager.ts:27-29 | stores one more than the index as read, so the index grows by exactly one (the one exception is a stored -1) |
| WaveManager.WaveManager.Reset | src/game/systems/WaveManager.ts:42-44 | the index is 1 again, giving a 2200 ms interval and normal speed |
| ScoreTimer.TotalMonotone | src/game/systems/ScoreTimer.ts:3-6 | with non-negative frame deltas the elapsed time never goes down |
| ScoreTimer.TotalAppend | src/game/systems/ScoreTimer.ts:3-6 | accumulating frame by frame composes: running the first frames and then the rest equals running them all |
| ScoreTimer.ScoreTimer.constructor | src/game/systems/ScoreTimer.ts:2 | elapsed time starts at 0 |
| ScoreTimer.ScoreTimer.Update | src/game/systems/ScoreTimer.ts:3-6 | adds the delta, returns the new total, and never goes down for a non-negative delta |
| ScoreTimer.ScoreTimer.Ms | src/game/systems/ScoreTimer.ts:7-9 | the getter reports the current total and changes nothing |
| ScoreTimer.ScoreTimer.Reset | src/game/systems/ScoreTimer.ts:10-12 | elapsed time is 0 again |
| BowlerAnimator.PhaseDuration | src/game/systems/BowlerAnimator.ts:44 | each phase lasts a whole number of milliseconds, at least 120; a share above the floor lies within half a millisecond below and at most half above, which with wholeness pins `max(120, Math.round(share))` |
| BowlerAnimator.CycleDurations | src/game/systems/BowlerAnimator.ts:41-45 | there are four durations, each a whole number of milliseconds and at least 120, and each is its 300:220:220:260 share of the cycle rounded to the nearest millisecond (halves up) unless the floor applies |
| BowlerAnimator.Step | src/game/systems/BowlerAnimator.ts:63-76 | the phase advances by one (3 wraps to 0) exactly when its time reaches its duration; only that duration is subtracted, so the excess carries over; a throw fires exactly on entering phase 3 |
| BowlerAnimator.Run | src/game/systems/BowlerAnimator.ts:63-76 | any run of updates keeps the phase index within the four phases |
| BowlerAnimator.RunCyclesPhases | src/game/systems/BowlerAnimator.ts:66-68 | after any run of updates, the phase index is the start phase plus the number of phase changes, mod 4: the phases only ever cycle 0, 1, 2, 3, 0 |
| BowlerAnimator.RunThrowsOncePerCycle | src/game/systems/BowlerAnimator.ts:66-74 | after any run of updates, the number of throws is exactly the number of passes into phase 3, one per full cycle |
| BowlerAnimator.ThrowOrigin | src/game/systems/BowlerAnimator.ts:78-82 | the release point: the bowler's container offset from `top` (lines 34-38) plus 24 px along the chord. It has no contract of its own; GameScene.ThrowsStartAtTop proves that it projects past the top |
| BowlerAnimator.BowlerAnimator.constructor | src/game/systems/BowlerAnimator.ts:11-14 | starts in phase 0 with no time spent and durations 300, 220, 220, 260 |
| BowlerAnimator.BowlerAnimator.SetCycleFromInterval | src/game/systems/BowlerAnimator.ts:41-45 | replaces the durations with those derived from the cycle length and leaves the phase alone |
| BowlerAnimator.BowlerAnimator.Reset | src/game/systems/BowlerAnimator.ts:47-61 | back to the start of phase 0; the durations are re-derived only for a present, non-zero cycle length |
| BowlerAnimator.BowlerAnimator.Update | src/game/systems/BowlerAnimator.ts:63-76 | the new phase and the throw flag are exactly one `Step`, and the durations do not change |
| BoulderSpawner.Boost | src/game/systems/BoulderSpawner.ts:77-78 | the first two boulders of a wave get the boost and later ones get 1; the factor is never below 1 |
| BoulderSpawner.Move | src/game/systems/BoulderSpawner.ts:33-39 | rolling keeps radius and boost, moves the sprite to the resting position for the new progress, and never raises progress for a non-negative travel (it strictly lowers it for a positive one) |
| BoulderSpawner.Survivors | src/game/systems/BoulderSpawner.ts:32-45 | each boulder is moved, and those at or below -0.05 are dropped; the list never grows (its order and exact contents are in the two lemmas below) |
| BoulderSpawner.SurvivorsAppend | src/game/systems/BoulderSpawner.ts:32-45 | rolling and culling a list treats each boulder independently and keeps their relative order |
| BoulderSpawner.SurvivorsExactly | src/game/systems/BoulderSpawner.ts:41-44 | the survivors are exactly the moved boulders still above -0.05: each survivor is one of them, each of them survives, and the list never grows |
| BoulderSpawner.TimerBoulder | src/game/systems/BoulderSpawner.ts:67-81 | a timer spawn starts in [0.88, 0.98) with a radius of 18 to 28, boost 3 for the first two of the wave, and rests one radius off the chord |
| BoulderSpawner.BoulderSpawner.constructor | src/game/systems/BoulderSpawner.ts:15-22 | starts with no boulders, an empty accumulator and a zero count |
| BoulderSpawner.BoulderSpawner.Update | src/game/systems/BoulderSpawner.ts:24-46 | spawns exactly when the accumulator reaches the interval, then restarts it from 0 and drops the excess; the new list is exactly the survivors of the old list plus the spawn |
| BoulderSpawner.BoulderSpawner.Roll | src/game/systems/BoulderSpawner.ts:32-45 | the backward loop that moves each boulder and splices out culled ones in place leaves exactly the survivors of the old list, in order, and touches neither the accumulator nor the count |
| BoulderSpawner.BoulderSpawner.Spawn | src/game/systems/BoulderSpawner.ts:67-81 | counts the spawn and appends the drawn boulder, boosted by its count |
| BoulderSpawner.BoulderSpawner.SpawnFromWorldPosition | src/game/systems/BoulderSpawner.ts:83-96 | appends a boulder sitting at the world point, with progress equal to the point's clamped projection on the chord and boost 1.5 for the first two of the wave |
| BoulderSpawner.BoulderSpawner.Collides | src/game/systems/BoulderSpawner.ts:48-54 | reports a hit if and only if some live boulder's circle touches the given circle, so an empty field never hits |
| BoulderSpawner.BoulderSpawner.Reset | src/game/systems/BoulderSpawner.ts:56-61 | no boulders, empty accumulator and zero count |
| PlayerController.TargetRate | src/game/systems/PlayerController.ts:67 | the target is 1, -1 or 0; it is 0 while airborne; 1 exactly when grounded with forward held, so forward wins; -1 exactly when grounded with only backward held |
| PlayerController.EaseTowardTarget | src/game/systems/PlayerController.ts:68 | easing by a fraction in [0, 1] shrinks the gap to the target by the factor `1 - k`, lands between the old rate and the target, and keeps a rate in [-1, 1] |
| PlayerController.Climb | src/game/systems/PlayerController.ts:67-71 | progress after a frame is always in [0, 1] |
| PlayerController.ClimbTowardTarget | src/game/systems/PlayerController.ts:68-71 | the new climb rate lies between the old one and the target and stays in [-1, 1]; progress moves in the direction of the new rate |
| PlayerController.Fall | src/game/systems/PlayerController.ts:82-91 | gravity first, then the offset moves; the avatar lands if and only if the new offset would be at or below the path, and then it is exactly on the path at rest; the offset is never negative |
| PlayerController.PlayerController.constructor | src/game/systems/PlayerController.ts:47-61 | each option falls back to its default (0.15, 18, 0.10, 1, 450, 1100); the avatar starts grounded at rest |
| PlayerController.PlayerController.Update | src/game/systems/PlayerController.ts:63-95 | progress and rate are one `Climb` frame; a jump pressed on the ground only schedules a wind-up, and the avatar stays grounded at rest that frame; an airborne avatar takes one `Fall` frame; the avatar is never below the path |
| PlayerController.PlayerController.FireWindUp | src/game/systems/PlayerController.ts:75-80 | the wind-up firing sets the jump velocity and leaves the ground, without moving progress |
| PlayerController.PlayerController.Reset | src/game/systems/PlayerController.ts:154-161 | back to progress 0.15, on the ground at rest with no climb rate; scheduled wind-ups are not cancelled |
| PlayerController.PlayerController.Pose | src/game/systems/PlayerController.ts:134-136 | the pose is exactly radius plus jump height away from the path point, on the side against the normal: its offset from that point has component minus that distance along the normal |
| PlayerController.PlayerController.Center | src/game/systems/PlayerController.ts:137-144 | the collision centre is the sprite's position, which is the pose drawn 10 px higher. It is a definition with no further contract |
| GameScene.BoulderSpeed | src/game/scenes/GameScene.ts:122-123 | with non-negative time and a wave multiplier of at least 1, boulders roll at least 110 px/s |
| GameScene.GameSlope | src/game/scenes/GameScene.ts:54-74 | the slope runs from (0, 0.8h) to (w, 0.46h) as a cubic Bezier, and its unit, normal and length are consistent |
| GameScene.ThrowsStartAtTop | src/game/systems/BowlerAnimator.ts:78-82 | on a slope whose chord rises on screen, the throw point projects past the top, so a thrown boulder starts at progress exactly 1 |
| GameScene.GameThrowsStartAtTop | src/game/scenes/GameScene.ts:88-91 | on the game's own slope, every thrown boulder starts at progress 1 |
| GameScene.GameScene.constructor | src/game/scenes/GameScene.ts:83-95 | after `init` and `create`. The timer, wave manager, avatar, spawner and bowler are newly built. Time is 0. The wave index is 1 unless told not to reset, in which case it is the registry's value, and it is written back. The avatar is built with no options, so radius, climb rate, input easing, jump velocity and fall acceleration are the defaults; it starts at 0.15, grounded and at rest, with nothing scheduled. Boulders and bowler are at their start, and the bowler's cycle is derived from the wave's interval |
| GameScene.GameScene.Init | src/game/scenes/GameScene.ts:23-31 | time is zero; the wave index is reset to 1 unless `resetWaves` is exactly `false`; the index is written back to the registry |
| GameScene.GameScene.Restart | src/game/scenes/GameScene.ts:33-46 | avatar, boulders and bowler go back to their start, and time is zeroed. The bowler's cycle is re-derived from the current wave. The wave index and the avatar's scheduled wind-ups are kept |
| GameScene.GameScene.Update | src/game/scenes/GameScene.ts:106-145 | one frame in the source's order. Timer. Avatar: one `Climb` step with the jump never delivered; a grounded avatar stays at rest, an airborne one takes one `Fall` step. Bowler: one `Step`, durations unchanged. A throw adds a boulder at the throw point. Boulders: `Survivors` at the ramped speed. Spawn accumulator: reset only when it reaches the maximal interval, otherwise grown by the delta. Outcome: lost (index back to 1) if and only if a boulder touches the avatar, even at the top; otherwise cleared (index plus one) if and only if progress is at least 0.98; otherwise running with the index untouched |
| GameScene.GameScene.Advance | src/game/scenes/GameScene.ts:107-123 | the frame's simulation steps and their combined effect on every subsystem: timer, avatar (`Climb`, and `Fall` when airborne), bowler (`Step`, durations unchanged), the throw, the spawn accumulator and count, and `Survivors` |
| GameScene.GameScene.Throw | src/game/scenes/GameScene.ts:88-91 | the bowler takes one `Step` with its durations unchanged, and a throw appends exactly one boulder at the throw point; the spawn accumulator is untouched |
| GameScene.GameScene.Judge | src/game/scenes/GameScene.ts:128-145 | the collision is checked before the win, and each outcome updates the wave index as stated above |
| GameScene.StartAndPlayFrame | src/game/scenes/GameScene.ts:106-123 | a newly built scene can be stepped. Its first frame starts from the start state: play time and spawn accumulator both equal the frame's delta (below the maximal interval). The avatar's climb is one `Climb` from 0.15 at rest with the default tuning, and it stays grounded with no jump scheduled. The bowler keeps the starting wave's cycle. A loss writes wave 1 back |

## Left out

- Rendering:
  - sprites, textures, containers and display sizes;
  - rotation, including `atan2` and each boulder's `rollDeg`;
  - the bowler's container layout, apart from the throw point it yields;
  - the walk-cycle animation and sprite-key selection;
  - `destroy`;
  - the background image.
- UI and scene plumbing: UI scene events (`tick`, `wave`), the UI scene launch, and the scene's `sleep` and `start` transitions.
- PlayerController.PlayerController.FireWindUp: the scene clock behind the 80 ms jump wind-up is not modelled. The wind-up becomes a counter of scheduled wind-ups, and `FireWindUp` is the callback firing. When it fires is left to the caller.
- Randomness: the progress and radius draws of a spawn are parameters with range preconditions.
- Square roots: normalising the chord and measuring distances use square roots.
  - The slope's unit vector and length are inputs, constrained by `unit * length == top - bottom` and `|unit|^2 == 1`.
  - Distances are compared squared.
- Floating point: all quantities are exact reals, so IEEE-754 rounding, NaN and infinities are not modelled.
- WaveManager.ReadIndex: of the falsy registry values, it treats only a missing entry and 0 as falsy. NaN is not modelled.
- The scene's `waveUpdate.changed` branches are not modelled. The wave manager always reports `false`, so these branches never run.
- GameScene.GameScene.Restart: its guards against subsystems that do not exist yet are not modelled, because the model's scene always has them.
- Key state: held keys come in as two booleans, forward and backward. They stand for the up/right and down/left keys of both key sets.
- `getCenter`, `getRadius`, `getS` and `index`: these getters are the functions `Center` and `Index` and plain field reads.
