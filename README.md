# Santa coal crasher: the simulation core in Dafny

This project models the game logic of a small 3D arcade shooter. A sleigh moves
left and right, shoots lasers forward and must dodge lumps of coal ("meteors")
flying towards it. The model covers these parts:

- **Countdown timer** (`Timers`, custom_timer.dfy). `Timer` is a class whose
  `Update` is proved against the pure step function `Step`. Lemmas over runs of
  updates cover their behaviour: an idle timer never fires, a one-shot timer fires
  at most once, and only when its duration has elapsed, and a looping timer keeps
  running.
- **Entities** (`Models`, models.dfy):
  - `Player` follows the arrow keys, with right winning over left, clamps its
    x to [-4, 4], eases its tilt and asks for a laser on space.
  - `Laser` flies along -z at speed 9.
  - `Meteor` has a hit radius of 40% of its visual size. When flashed it stops
    moving, its flash fades linearly to 0, and its 0.25 s one-shot death timer
    marks it for discard.
- **Game world** (`Shooter`, game.dfy):
  - the start / playing / game-over state machine;
  - the spawn cap of eight meteors;
  - pruning of discarded entities;
  - collision resolution, where a crash ends the game and every overlapping
    (laser, meteor) pair scores one point;
  - the fixed order of a playing tick, ending with the depth cull.

The game's lists of lasers and meteors are `seq` fields of the `Game` class.
Its entities are objects that the passes update in place. The steps of a playing
tick are stated over snapshots of those objects: the lasers' positions and
discard flags, the meteors' bodies and states, and the craft's state. Pure
functions give one update of each: `Fly` for the craft, `Flown` for the lasers
and `Advance` for a meteor.

The collision pass is specified with pure functions over snapshots of the
entities:
- `Positions`, `Bodies`, `Discards` and `States` are the snapshots;
- `PairCount` is the score gain;
- `Hits` is the lasers' discard flags;
- `Outcomes` is the meteors' states.

The nested loops are proved against these functions. `PairCount` is defined as
the sum, over the lasers, of the number of meteors each one overlaps. Lemmas then
say what the functions mean:
- one laser's count is at most the number of meteors and is positive exactly when
  it overlaps some meteor; the gain is at most lasers times meteors, and is zero
  exactly when no pair overlaps;
- a laser is discarded exactly when it already was or it overlaps some meteor;
- a meteor is flashed, with its death timer restarted, exactly when some laser
  overlaps it.

Several parts of the world are inputs of the model rather than parts of it:
- The graphics library's overlap tests are a `CollisionTests` value: one
  function for sphere against sphere, one for box against sphere. The laser
  mesh's bounding box is a constant of the game.
- The random spawn values are a `MeteorSpawn` argument, constrained to the
  source's ranges.
- The two clocks are arguments:
  - `dt`, the wall-clock delta used for movement;
  - `frameDt`, the frame time the timers read.
- The sine used for bobbing is an argument.

Floating point is modelled by real arithmetic.

## Model

| member | source | states |
|---|---|---|
| Timers.Timer.constructor | code/custom_timer.py:4-9 | duration, loop and callback are as given; time is 0 and active equals autostart |
| Timers.Timer.Update | code/custom_timer.py:11-24 | the new (time, active) is `Step` of the old one. It fires exactly when the timer was active, time + dt reached the duration and it has a callback. An inactive timer is unchanged. Below the duration, time grows by exactly dt and the timer stays active. On expiry a looping timer restarts at 0 and stays active (the excess is dropped). A one-shot timer keeps time >= duration and becomes inactive |
| Timers.Timer.Activate | code/custom_timer.py:26-28 | time becomes 0 and the timer is active |
| Timers.Timer.Deactivate | code/custom_timer.py:30-31 | the timer becomes inactive and time is unchanged |
| Timers.Timer.IsActive | code/custom_timer.py:33-34 | returns the active flag |
| Timers.IdleWhileInactive | code/custom_timer.py:12-13 | over any run of updates an inactive timer neither changes nor fires |
| Timers.OneShotFiresAtMostOnce | code/custom_timer.py:17-24 | over any run of updates a one-shot timer fires at most once, and has become inactive once it has fired |
| Timers.OneShotFiresWhenElapsed | code/custom_timer.py:15-24 | give a running one-shot timer non-negative frame deltas. It fires exactly once if its time plus their sum reaches the duration, and never otherwise. Until then it is active, with the deltas added to its time |
| Timers.LoopingStaysRunning | code/custom_timer.py:15-22 | a running looping timer stays active over non-negative deltas, with its time kept in [0, duration) |
| Vectors.DisplaceComposes | code/models.py:16-19 | a move by dt1 followed by a move by dt2 is a move by dt1 + dt2 (constant velocity) |
| Models.Steer | code/models.py:56-64 | direction.x is 1 exactly when right is held, -1 exactly when only left is held, 0 when neither is held; the target tilt is -5 times the direction |
| Models.ClampX | code/models.py:73-74 | the result is in [-4, 4], equals x inside the bounds and is the nearer bound outside them |
| Models.EaseGap | code/models.py:81-82 | one tilt step multiplies the remaining gap to the target by (1 - 5 dt) |
| Models.EaseOvershootsOnlyForLongFrames | code/models.py:81-82 | for deltas up to 0.2 s the tilt ends between its old value and the target; for longer ones it passes the target |
| Models.Player.constructor | code/models.py:34-40 | the craft starts at the origin, level, with no bob offset and not discarded |
| Models.Player.Input | code/models.py:54-67 | direction.x and the target tilt follow `Steer`; the other components of direction are untouched; space asks for exactly one laser at pos + (0, 0, -1), and no key asks for none; position, angle and bob are untouched |
| Models.Player.Update | code/models.py:69-82 | the whole state of the craft becomes `Fly` of the old one. After input, direction.x follows `Steer` and the other components of direction are kept. x becomes the clamped x + direction.x * 7 * dt, so it ends in [-4, 4]. The bob offset grows by 2 dt and y is the bob height. z never changes. The angle takes one `Ease` step towards the target. The shot request is the one input made |
| Models.Laser.constructor | code/models.py:94-96 | a laser starts at the given position, not discarded, flying along (0, 0, -1) at speed 9 |
| Models.Laser.Update | code/models.py:16-22 | the laser is displaced by direction * speed * dt, which lowers z by 9 dt and leaves x, y and the discard flag as they were |
| Models.FlashDecay | code/models.py:158-159 | a non-positive intensity is left alone; a positive one falls by 2.5 dt and never below 0, so it never grows for dt >= 0 |
| Models.FadeIsLinearUntilZero | code/models.py:158-159 | over non-negative deltas the intensity is max(0, f - 2.5 * total time) |
| Models.AdvanceUnhit | code/models.py:145-148 | a meteor that is not hit, not discarded and whose death timer is off moves by its velocity and stays undiscarded, with its timer unchanged |
| Models.Meteor.constructor | code/models.py:100-130 | the spawn position is (x, 0, -20). The hit radius is 0.4 times the visual radius. Speed and drift are the drawn values. The meteor is not hit and not discarded, with no flash and an inactive death timer at time 0 |
| Models.Meteor.Flash | code/models.py:133-140 | the meteor is hit, its flash intensity is 0.6 and its death timer is switched on with its time kept; position, rotation and discard are untouched |
| Models.Meteor.ActivateDeathTimer | code/custom_timer.py:26-28 | the activate call on a meteor's death timer: time 0 and running, nothing else changed |
| Models.Meteor.ActivateDiscard | code/models.py:142-143 | the meteor is marked for discard and nothing else changes |
| Models.Meteor.Update | code/models.py:145-159 | the whole mutable state becomes `Advance` of the old one. The death timer takes one one-shot 0.25 s step, and its expiry marks the meteor for discard. A meteor that is not hit moves by its velocity and turns by 0.1 dt about y; a hit one keeps its position and rotation. The flash decays by `FlashDecay` either way |
| Lists.Filter | code/main.py:76-77 | the list comprehension's loop computes `Keep` of the list and its mask |
| Lists.KeepMembers | code/main.py:76-77 | an element survives the filter exactly when some marked position holds it |
| Lists.KeepAppend | code/main.py:76-77 | filtering preserves order: the filter of a concatenation is the concatenation of the filters |
| Lists.KeepAll | code/main.py:130 | a list whose every element passes the test is left as it is |
| Lists.KeepDistinct | code/main.py:76-77 | filtering a list without repetitions gives one without repetitions |
| Shooter.StrikeCountCounts | code/main.py:91-104 | one laser scores at most once per meteor, and scores at all exactly when it overlaps some meteor |
| Shooter.StruckByAnyMeans | code/main.py:91-102 | a meteor is struck by the pass exactly when some laser's box overlaps it |
| Shooter.PairCountBound | code/main.py:91-104 | the score a pass adds is at most lasers * meteors |
| Shooter.PairCountZero | code/main.py:91-104 | the pass adds nothing exactly when no laser overlaps any meteor |
| Shooter.OutcomesMeans | code/main.py:91-102 | after the pass a meteor is flashed with a restarted death timer exactly when some laser overlaps it, and is unchanged otherwise |
| Shooter.HitsMeans | code/main.py:91-100 | after the pass a laser is discarded exactly when it already was or it overlaps some meteor |
| Shooter.FindPlayerHit | code/main.py:84-85 | the loop reports a hit exactly when some meteor's sphere overlaps the player's sphere of radius 0.8 |
| Shooter.StrikeMeteor | code/main.py:99-102 | only the struck meteor changes: it is hit, flashed at 0.6 and its death timer runs from 0; no meteor moves |
| Shooter.DiscardLaser | code/main.py:100 | only the given laser changes, and it is marked for discard; no laser moves |
| Shooter.ResolvePair | code/main.py:93-104 | the pair scores exactly when the laser's translated box overlaps the meteor. Then the laser is discarded and the meteor is flashed; otherwise nothing changes. No entity moves |
| Shooter.LaserSweep | code/main.py:92-104 | one laser against every meteor: the gain is that laser's overlap count. The laser is discarded when it scored. Each overlapped meteor is flashed, and the others are untouched |
| Shooter.LaserPass | code/main.py:91-104 | the whole nested loop: the gain is `PairCount`, the discard flags are `Hits` and the meteor states are `Outcomes` of the entry snapshot; no entity moves |
| Shooter.UpdateLasers | code/main.py:123-124 | every laser is displaced by its velocity times dt; discard flags are untouched |
| Shooter.UpdateMeteors | code/main.py:125-126 | every meteor takes exactly one `Meteor.update` step: its state becomes `Advance` of its old state, with its own velocity |
| Shooter.BodiesKeep | code/main.py:77 | the bodies of the pruned meteors are the pruned list of their bodies |
| Shooter.PositionsKeep | code/main.py:76 | the positions of the pruned lasers are the pruned list of their positions |
| Shooter.StatesKeep | code/main.py:77 | the states of the pruned meteors are the pruned list of their states |
| Shooter.NextState | code/main.py:106-141 | start goes to playing exactly on space and stays otherwise. Playing stays playing unless the player was struck. Game over, including the one just reached, goes to playing on R and stays otherwise. Game over is never the result when R is pressed |
| Shooter.Created | code/main.py:20-22 | one create_meteor call adds a meteor exactly when there are fewer than 8, and never more than one |
| Shooter.CreatedSaturates | code/main.py:20-22 | repeated calls add one meteor each until there are 8 and none after, so spawning never exceeds the cap |
| Shooter.Game.constructor | code/main.py:12-18 | the game starts on the start screen over a freshly reset world: score 0, no lasers or meteors, a new craft as `NewCraft` describes it (at the origin, level, with no target tilt, no bob offset and not discarded) and a new spawn timer at time 0 |
| Shooter.Game.ResetGame | code/main.py:50-70 | score 0, close cleared, no lasers or meteors, a new craft as `NewCraft` describes it (at the origin, level, with no target tilt, no bob offset and not discarded) and a new running looping 1.5 s spawn timer at time 0; the game state is kept |
| Shooter.Game.SpawnMeteor | code/main.py:72-73 | exactly one new meteor is appended, at (x, 0, -20) with the drawn radius, speed and drift, not hit, not discarded, with no flash and an inactive death timer at time 0. The bodies, states and live mask grow by that meteor's. Nothing else changes |
| Shooter.Game.CreateMeteor | code/main.py:20-22 | the meteor count becomes `Created` of the old one, the old meteors stay in front, and it never exceeds 8 |
| Shooter.Game.ShootLaser | code/main.py:24-25 | exactly one new laser is appended at the given position, not discarded: the positions grow by that position and the discard flags by false. Nothing else changes |
| Shooter.Game.CheckDiscard | code/main.py:75-77 | each list becomes the order-preserving filter of its undiscarded entities: an entity stays exactly when it was there and is not discarded. The lasers' positions and the meteors' bodies and states are filtered by the same masks, and no laser left is marked |
| Shooter.Game.PruneLasers | code/main.py:76 | the lasers become the order-preserving filter of the undiscarded ones, and so do their positions. No laser left is marked. The meteors' snapshots are unchanged |
| Shooter.Game.PruneMeteors | code/main.py:77 | the meteors become the order-preserving filter of the undiscarded ones, and so do their bodies and states. The lasers' snapshots are unchanged |
| Shooter.Game.CheckCollisions | code/main.py:79-104 | outside playing nothing changes. A meteor overlapping the player sets game over and stops before the laser pass, so score, lasers and meteors stay as they were. Otherwise the score grows by `PairCount`, and the lasers' and meteors' states become `Hits` and `Outcomes` |
| Shooter.Game.ScoreLasers | code/main.py:91-104 | the laser pass run on the game's lists, adding its gain to the score |
| Shooter.Game.TickSpawnTimer | code/main.py:118 | the spawn timer takes one step. When it expires, create_meteor runs, so the meteor count follows `Created` with the old meteors kept in front. The bodies, states and live mask grow by the new meteor's exactly then. The lasers and the craft are untouched |
| Shooter.Game.SpawnAndPrune | code/main.py:118-119 | after the timer step and check_discard, the meteors' bodies and states are those of the undiscarded old ones, in order, followed by the spawned one exactly when the timer expired below the cap. The lasers are the undiscarded old ones, in order, with their positions, and none is marked. Score, state and craft are unchanged |
| Shooter.Game.MoveEntities | code/main.py:122-126 | every laser is displaced by its velocity, so the positions become `Flown` of the old ones, and the discard flags are kept. Then every meteor's state becomes `Advance` of its old state. Nothing else changes |
| Shooter.Game.MovePlayer | code/main.py:127 | the craft's whole state becomes `Fly` of the old one: steering, clamped x, bob and y, kept z, the eased angle and the target tilt. Space appends one new unmarked laser one unit ahead of where the craft was, and otherwise the lasers are kept. The meteors are untouched |
| Shooter.Game.SteerCraft | code/main.py:127 | `Player.update` on the game's craft: its state becomes `Fly` of the old one, and the shot request is one unit ahead of its old position exactly on space. The lasers, meteors and timer are untouched |
| Shooter.Game.CullMeteors | code/main.py:130 | the meteors become the order-preserving filter of those with z < 10, and so do their states; lasers are not culled |
| Shooter.Game.TickFront | code/main.py:118-120 | spawn timer, pruning and collisions. The meteors tested are the undiscarded old ones, in order, followed by the spawned one when the timer expired below the cap. The lasers tested are the undiscarded old ones, in order. The state is game over exactly when one of the meteors overlaps the craft. A crash adds no score and changes no flag or meteor state. Otherwise the score grows by `PairCount` of the lasers and meteors tested, the lasers' flags become `Hits` and the meteors' states `Outcomes`. The timer steps once |
| Shooter.Game.TickBack | code/main.py:122-130 | entity updates, the craft and the cull. The laser positions become `Flown` of the old ones, followed by a new unmarked laser one unit ahead of the craft exactly on space, and the old flags are kept. The craft's state becomes `Fly` of the old one. The meteors become the order-preserving filter, by z < 10, of their `Advance`d states: a meteor stays exactly when it was there and is now nearer than depth 10 |
| Shooter.Game.PlayingTick | code/main.py:111-130 | one playing tick in the source's order. The crash flag holds exactly when the craft overlaps one of the meteors tested, which are the undiscarded old ones followed by any new spawn. The state is game over exactly then. The score grows by `PairCount` of the undiscarded old lasers against those meteors, and by nothing on a crash. The lasers end at `Flown` of those lasers' positions, plus a new one for space, with flags from `Hits`. The spawn timer steps once, the craft's state becomes `Fly` of the old one and every remaining meteor is at z < 10 |
| Shooter.Game.Update | code/main.py:106-141 | the new state is `NextState` of the old state, the keys and the crash. The crash holds exactly when a playing tick found the craft overlapping one of the meteors it tested (the undiscarded old ones followed by any new spawn). Restarting resets the world, with a `NewCraft`. Escape in game over asks to close. On the start screen, and in game over without R, nothing else changes: the lists, the lasers' positions and flags, the meteors' states, the craft and the timer are as they were. A playing tick without a restart adds `PairCount` of the lasers and meteors it tested to the score, and nothing on a crash. It steps the timer and the craft, moves the lasers and culls the meteors |
| Shooter.Game.PlayingUpdate | code/main.py:111-141 | update from the playing state: a playing tick, then the game-over branch when it crashed, with R restarting at once over a reset world with a `NewCraft`, and escape asking to close. Otherwise the tick's results are kept: the exact score gain, the timer and craft steps, the lasers' positions and the cull |
| Shooter.Game.GameOverKeys | code/main.py:136-141 | R resets the world, with a `NewCraft`, and plays again. Without R, escape asks to close and nothing else changes: the lists, the lasers' positions and flags, the meteors' bodies and states, the craft and the timer are as they were |

## Left out

- Window, audio, music, assets, fonts, textures, the camera and all drawing
  (`import_assets`, `draw*`, `unload`, `run`, `Model.draw`, `Player.draw`): rendering and I/O.
- The sounds that `shoot_laser` and the collision pass play: audio output.
- Shader setup, shader uniforms and model transforms of the craft and the
  meteors: foreign graphics calls. Only the flash intensity is kept as a real.
- `sin` in the craft's bobbing is a function parameter, so `pos.y` is stated in terms of it and nothing more.
- `check_collision_spheres`, `check_collision_box_sphere` and
  `get_mesh_bounding_box`: foreign library code. They are the `CollisionTests`
  fields and the `laserBox` constant, with no geometry assumed.
- `uniform`: each meteor's random draws are a `MeteorSpawn` argument, constrained to the source's ranges. The random initial orientation only feeds a transform and is left out.
- `get_time` and `get_frame_time`: clocks. `dt` and `frameDt` are arguments, and
  the `last_update` field is not modelled.
- Floating point is real arithmetic, so rounding and overflow are not modelled.
- `Floor` is never constructed, and code/constants.py is never imported: neither is modelled. Only the values of code/settings.py that the core reads are.
- Python's shared default `direction` vector of `Model.__init__`. A new craft reuses the last craft's direction vector, but the first input overwrites its x before any use. The model gives each object its own vector.
- Models.Player.constructor: states direction (0, 0, 0). Because of that sharing, the source's new craft starts with the previous craft's steering value in direction.x until its first input.
- Shooter.Game.constructor, Shooter.Game.ResetGame, Shooter.Game.GameOverKeys, Shooter.Game.PlayingUpdate and Shooter.Game.Update: the new craft's direction is left open (`NewCraft` does not name it), because of that sharing.
- Models.Meteor.Update: the meteor's death timer is held as its (time, active) fields, stepped by `Timers.Step`, rather than as a separate `Timer` object. The timer is never shared, so only the object identity is lost.
- Callbacks: `Timer.Update` reports a firing as its result, and its owner performs the named callback (`create_meteor` for the spawn timer, `activate_discard` for a death timer).
- Shooter.ResolvePair: the meteor is updated before `laser.discard` is set. The source sets the laser's flag between `meteor.hit` and the timer call. The two are different objects, so the final state is the same.
- Shooter.Game.PlayingTick: the meteors' exact final states are given step by step by `TickFront` (`Outcomes` of the pruned states) and `TickBack` (`Advance` and the cull). Its own contract does not compose the two and names only the cull's bound.
- Shooter.Game.PlayingUpdate: for a tick without a restart it states neither the lasers' discard flags nor the meteors' final states. Both are stated one level down, in `PlayingTick`, `TickFront` and `TickBack`.
- Shooter.Game.Update: a playing tick that ends in a restart is described only as a restart. The tick's intermediate results are discarded by `reset_game` anyway. For a playing tick it states neither the lasers' discard flags nor the meteors' final states, as for `PlayingUpdate`.
