# Boids simulation core, modelled in Dafny

This project models the core of a small "boids" flocking simulation written
in Rust on the ggez game engine. It covers three source files.

- `src/tools.rs` has the two-dimensional vector helpers: length, distance,
  difference, normalisation and velocity limiting, plus the component-wise
  `vec_op` family.
- `src/main.rs` has the simulation controller `MainState`, with these parts:
  - the three-state pause machine (`Running`, `ToPause`, `Paused`);
  - the rule switches for separation, alignment and cohesion and the keys
    that flip them;
  - the bird-spawn cooldown;
  - one tick of `update`. A tick spawns a bird under the mouse, runs the
    three neighbour scans for every bird in index order, adds up the
    contributions of the rules that are switched on, moves the bird, and
    finally removes the dead birds.
- `src/entities.rs` has a bird that flies on at a fixed speed and, whenever
  its countdown of 0.1 s runs out, turns by a small random angle. At 60 ticks
  per second the countdown runs out every sixth update over the reals, and
  every seventh in `f32`, where six steps of 1/60 leave it slightly positive.
  The file also has an obstacle that is only ever constructed.

The modules follow the files.

- `Tools` (tools.dfy) is `src/tools.rs`.
- `Steering` (steering.dfy) is the per-bird steering computation of
  `MainState::update`.
- `Simulation` (simulation.dfy) is the rest of `MainState`.
- `Entities` (entities.dfy) is `src/entities.rs`.

All `f32` values are modelled as `real`. `sqrt`, `sin` and `cos` cannot be
defined here, so they enter as function-valued parameters. The hypothesis
`Tools.IsSqrt(sqrt)` is everything the model knows about the square root: a
non-negative argument has a non-negative root whose square is the argument.

The helpers that overwrite a `&mut` argument are methods. Each takes the old
value and returns the new one. Rust forbids any other alias of a `&mut`
borrow, so nothing is lost by this. `NormalizeVector` and `LimitVelocity`
are proved equal to the specification functions `Normalized` and `Limited`,
and the properties the source promises are proved about those functions.
`VecOp`, `VecScalarOp`, `PointOp` and `PointScalarOp` take the closure `op`,
so their contracts state the component-wise results of `op`. The tick's
calls of them, each with its own closure, are the methods `AddVectors`,
`DivideVector` and so on, which are proved equal to `Plus`, `DivBy` and the
other component-wise functions.

The tick is modelled at two levels.

- Specification functions describe the tick. `Steering.Alignment`,
  `Steering.Separation`, `Steering.Cohesion` and `Steering.Acceleration`
  describe a bird's contributions. `Simulation.Moved` describes the flock
  after the first `k` birds have moved. `Simulation.Retained` describes the
  removal of dead birds.
- Methods carry out the tick loop by loop and are proved to compute exactly
  those functions:
  - `Steering.AlignmentSum`, `SeparationSum` and `CohesionSum` are the
    neighbour loops;
  - the `…Scan` methods are the rules;
  - `ComputeAcceleration` is one bird;
  - `Simulation.MoveFlock` is the bird loop;
  - `Simulation.MainState.Update` is the tick.

The following quirks of the source are modelled as written.

- The separation scan does not reset the neighbour counter that the
  alignment scan leaves behind (src/main.rs:162, :188). Its sum is divided
  by the alignment count plus the separation count, and
  `Steering.SeparationWith` takes that carried count as a parameter.
  `Steering.SeparationIgnoresCarriedCount` shows that over the reals the
  carried count makes no difference to the result: a positive divisor does
  not change the direction that is steered on.
- The cohesion vector is `get_vec_from_to(pos, average)`, that is
  `pos - average`. It points away from the neighbours' average position
  (`Steering.CohesionPointsAwayFromAverage`).
- The cohesion rule normalises that vector without checking its length. A
  bird that sits exactly on its neighbours' average gets `0.0 / 0.0`, which
  is NaN in `f32`. The NaN passes through the scaling by `MAX_SPEED`, the
  subtraction of the velocity and the limit (src/main.rs:219-221), and it is
  then added to the bird's acceleration (src/main.rs:224). `Accel` models this as `NotANumber`
  (`Steering.AccelerationNaN`). What the NaN does to the bird itself is the
  business of the bird update, which is not part of this model (see
  "Left out").
- The alignment rule only averages the neighbours' velocities. Unlike the
  other two rules it does not normalise the average, scale it to
  `MAX_SPEED`, subtract the bird's velocity or limit the result.
- The spawn cooldown restarts at 0.1 s. The velocity of a new bird is drawn
  from the half-open range `[-0.1, 0.1)` per axis.
- The birds are updated in place, in index order. Bird `k` therefore sees
  birds `0 .. k-1` already moved in this tick (`Simulation.MovedInIndexOrder`).
- The weight constants `ALIGNMENT_MODIFIER`, `SEPARATION_MODIFIER` and
  `COHESION_MODIFIER` are declared but never used.
- The shown tick has no obstacle avoidance and no random jitter, and does
  no screen wrap-around of its own. It passes the screen size to the bird
  update `update(acceleration, MAX_SPEED, width, height)`. Whatever that
  update does with the screen size belongs to the `update` parameter.

## Model

| member | source | states |
|---|---|---|
| `Tools.VectorLength` | src/tools.rs:38-40 | the length is non-negative, its square is `x² + y²`, and it is zero exactly for the zero vector |
| `Tools.Normalized` | src/tools.rs:7-11 | the unit vector of a non-zero vector has length 1, and the vector is its length times the unit vector (same direction) |
| `Tools.ScaledLength` | src/tools.rs:38-40 | scaling a vector by `k >= 0` scales its length by `k` |
| `Tools.Limited` | src/tools.rs:31-37 | a vector of length at most `max` is returned unchanged (the test is strict `>`); a longer one becomes `max / length` times itself, so it keeps its direction and gets length exactly `max`; for `max >= 0` the result is never longer than `max` |
| `Tools.NormalizeVector` | src/tools.rs:7-11 | dividing both components by the length yields `Normalized(vec)`; a non-zero vector is required because the source has no zero guard |
| `Tools.VecOp` | src/tools.rs:21-24 | each component becomes `op` of the matching components of both vectors; the second vector is only read |
| `Tools.VecScalarOp` | src/tools.rs:26-29 | each component becomes `op(component, scalar)`, independently |
| `Tools.LimitVelocity` | src/tools.rs:31-37 | recomputing the speed and scaling by `max / speed` when it exceeds `max` yields `Limited(v, max)` |
| `Tools.PointOp` | src/tools.rs:42-45 | as `VecOp`, on points |
| `Tools.PointScalarOp` | src/tools.rs:47-50 | as `VecScalarOp`, on points |
| `Tools.GetVecFromTo` | src/tools.rs:17-19 | no contract of its own: the vector `p1 - p2`; its properties are `GetVecFromToAntisymmetric` and `GetVecFromToExample` |
| `Tools.Distance` | src/tools.rs:13-15 | no contract of its own: the length of `get_vec_from_to(p1, p2)`, the same root of the same sum of squares; its properties are `DistanceProperties` and the contract of `VectorLength` |
| `Tools.GetVecFromToAntisymmetric` | src/tools.rs:17-19 | swapping the arguments negates the vector, and `p2 + get_vec_from_to(p1, p2) == p1` |
| `Tools.NegatedLength` | src/tools.rs:38-40 | a reversed vector has the same length |
| `Tools.DistanceProperties` | src/tools.rs:13-15 | the distance is symmetric and non-negative, and zero exactly when the two positions agree |
| `Tools.NormalizedScaleInvariant` | src/tools.rs:7-11 | a positive multiple of a non-zero vector has the same unit vector |
| `Tools.NormalizeTen` | tests/tools_test.rs:5-10 | (10, 0) has length 10 and normalises to (1, 0) |
| `Tools.GetVecFromToExample` | tests/tools_test.rs:21-34 | (2, 4), (1, 2) give (1, 2), and the reverse gives (-1, -2) |
| `Tools.LimitTen` | tests/tools_test.rs:37-49 | (10, 0) limited to 10 is unchanged; limited to 5 it becomes (5, 0) |
| `Steering.NeighbourCount` | src/main.rs:164-170 | the number of birds with `0 < distance <= view` is at most the number of birds scanned |
| `Steering.Steer` | src/main.rs:194-198 | the steering delta (desired direction at `MAX_SPEED`, minus the velocity, limited) is never longer than `MAX_STEERING_VELOCITY` = 0.5 |
| `Steering.SeparationWith` | src/main.rs:180-199 | the separation contribution, averaged over the carried count plus the separation count and steered on only when non-zero, is never longer than 0.5 |
| `Steering.Cohesion` | src/main.rs:205-222 | zero without cohesion neighbours; NaN exactly when there are neighbours and the bird sits on their average position; otherwise never longer than 0.5 |
| `Steering.IsNeighbour` | src/main.rs:166 | no contract of its own: `0 < distance <= view`, the test of all three scans (also src/main.rs:183 and :210); its properties are `SamePositionIsNoNeighbour` and `NoNeighbours` |
| `Steering.Alignment` | src/main.rs:161-177 | no contract of its own: the velocity sum divided by a positive count, else the zero sum; its properties are `AlignmentIsAverage` and `AlignmentScan` |
| `Steering.Separation` | src/main.rs:180-199 | no contract of its own: `SeparationWith` of the count the alignment scan leaves; its properties are `SeparationAsIfCounterReset`, `SeparationWithoutNeighbours` and the bound of `SeparationWith` |
| `Steering.AveragePosition` | src/main.rs:216 | no contract of its own: the position sum divided by the positive count; its properties are `AverageExample` and `Cohesion` |
| `Steering.Acceleration` | src/main.rs:158-225 | no contract of its own: the switched-on contributions summed in source order; its properties are `NoRulesNoAcceleration`, `RulesAreAdded`, `AccelerationNaN` and `ComputeAcceleration` |
| `Steering.SamePositionIsNoNeighbour` | src/main.rs:164-166 | a bird at the same position, in particular the bird itself, is never a neighbour |
| `Steering.NoNeighbours` | src/main.rs:164-170 | the neighbour count is zero exactly when no bird of the flock is a neighbour |
| `Steering.SumsWithoutNeighbours` | src/main.rs:205-214 | without neighbours both the velocity sum and the position sum are zero |
| `Steering.AwaySumWithoutNeighbours` | src/main.rs:181-190 | without separation neighbours the separation sum is zero |
| `Steering.VelocitySum` | src/main.rs:164-170 | no contract of its own: the sum of the velocities of the alignment neighbours, in scan order; its properties are `ScanStep`, `SumsWithoutNeighbours`, `AlignmentSum` and `AlignmentIsAverage` |
| `Steering.PositionSum` | src/main.rs:208-214 | no contract of its own: the sum of the positions of the cohesion neighbours; its properties are `ScanStep`, `SumsWithoutNeighbours`, `CohesionSum` and `AverageExample` |
| `Steering.AwayFrom` | src/main.rs:184-186 | no contract of its own: the unit vector from a close neighbour to the bird, divided by their distance; its property is `AwayFromNeighbour` |
| `Steering.AwaySum` | src/main.rs:181-190 | no contract of its own: the sum of `AwayFrom` over the separation neighbours; its properties are `AwaySumStep`, `AwaySumWithoutNeighbours` and `SeparationSum` |
| `Steering.ScanStep` | src/main.rs:164-170 | scanning one more bird changes the count and the sums only when that bird is a neighbour, and then by its velocity or position |
| `Steering.AwaySumStep` | src/main.rs:181-190 | scanning one more bird adds its away vector to the separation sum exactly when it is a close neighbour |
| `Steering.AlignmentIsAverage` | src/main.rs:161-177 | the alignment contribution is zero without neighbours; otherwise the count times it gives back the velocity sum, so it is the average neighbour velocity |
| `Steering.SeparationWithoutNeighbours` | src/main.rs:180-199 | without separation neighbours the separation contribution is zero, whatever count was carried over |
| `Steering.DivByPositive` | src/main.rs:191-195 | dividing by a positive count keeps a vector zero or non-zero and keeps its unit vector |
| `Steering.SeparationIgnoresCarriedCount` | src/main.rs:180-199 | the separation contribution is the same for every carried counter value |
| `Steering.SeparationAsIfCounterReset` | src/main.rs:188 | dividing by the alignment count plus the separation count gives the same separation as a reset counter |
| `Steering.NoRulesNoAcceleration` | src/main.rs:158-225 | with every rule switched off the acceleration is zero |
| `Steering.AddTo` | src/main.rs:224 | no contract of its own: a `vec_op` addition to the acceleration, which a NaN acceleration absorbs; its properties are `CombineAdds` and `RulesAreAdded` |
| `Steering.Combine` | src/main.rs:175-225 | no contract of its own: the guarded additions of src/main.rs:175-177, 200-202 and 223-225 from the zero vector, in that order; its properties are `CombineAdds`, `NoRulesNoAcceleration` and `ComputeAcceleration` |
| `Steering.CombineAdds` | src/main.rs:175-225 | switching a rule on adds its contribution to what the other rules give, and nothing else; the sum is NaN exactly when cohesion is on and NaN |
| `Steering.RulesAreAdded` | src/main.rs:175-225 | the acceleration with a rule on is the acceleration with it off plus that rule's contribution |
| `Steering.AccelerationNaN` | src/main.rs:205-225 | the acceleration is NaN exactly when cohesion is on and the bird sits on its neighbours' average position |
| `Steering.NormalizeExample` | src/main.rs:218 | (-10, 0) normalises to (-1, 0) |
| `Steering.AverageExample` | src/main.rs:205-216 | a bird at the origin with one bird at (10, 0) has one cohesion neighbour, whose position is the average |
| `Steering.CohesionPointsAwayFromAverage` | src/main.rs:217 | in that flock the cohesion rule steers along (-10, 0), away from the neighbour |
| `Steering.AddVectors` | src/main.rs:167 | `vec_op` with `a + b` is the component-wise sum |
| `Steering.SubtractVectors` | src/main.rs:197 | `vec_op` with `a - b` is the component-wise difference |
| `Steering.ScaleVector` | src/main.rs:196 | `vec_scalar_op` with `a * b` scales both components |
| `Steering.DivideVector` | src/main.rs:173 | `vec_scalar_op` with `a / b` divides both components by a non-zero divisor |
| `Steering.AddPoints` | src/main.rs:211 | `point_op` with `a + b` is the component-wise sum of points |
| `Steering.DividePoint` | src/main.rs:216 | `point_scalar_op` with `a / b` divides both coordinates by a non-zero divisor |
| `Steering.AlignmentSum` | src/main.rs:161-171 | the alignment loop leaves the sum of the neighbours' velocities and their number |
| `Steering.AlignmentScan` | src/main.rs:161-174 | the alignment scan leaves the alignment contribution and the neighbour count in the shared counter |
| `Steering.SteerAlong` | src/main.rs:194-198 | normalise, scale to `MAX_SPEED`, subtract the velocity and limit compute `Steer` |
| `Steering.AwayFromNeighbour` | src/main.rs:183-186 | for a close neighbour, the normalised vector from the neighbour to the bird divided by their distance |
| `Steering.SeparationSum` | src/main.rs:180-190 | the separation loop leaves the sum of the away vectors and the counter advanced by the number of close neighbours |
| `Steering.SeparationScan` | src/main.rs:180-199 | the separation scan, started with the counter the alignment scan left, computes `SeparationWith` of that counter |
| `Steering.CohesionSum` | src/main.rs:205-213 | the cohesion loop leaves the sum of the neighbours' positions and their number |
| `Steering.CohesionScan` | src/main.rs:205-222 | the cohesion scan computes the cohesion contribution, NaN included |
| `Steering.AddIfOn` | src/main.rs:175-177 | a contribution is added to the acceleration only when its rule is on |
| `Steering.ComputeAcceleration` | src/main.rs:158-225 | the three scans with their guarded additions compute `Acceleration`, the sum of the switched-on contributions in the order alignment, separation, cohesion |
| `Simulation.TogglePaused` | src/main.rs:117-123 | `toggle_pause` never yields `Paused`, and yields `Running` exactly when the game is not running |
| `Simulation.DrawPaused` | src/main.rs:281-282 | `draw` turns `ToPause` into `Paused` and leaves every other state as it is |
| `Simulation.PauseCycle` | src/main.rs:117-123 | two presses with no frame between them resume the game; a frame between them pauses it; a second draw changes nothing |
| `Simulation.ToggleNamed` | src/main.rs:100-116 | each known name flips exactly its switch; an unknown name changes nothing |
| `Simulation.ToggleTwice` | src/main.rs:100-116 | toggling the same rule twice restores every switch, and a toggle changes something exactly when the name is known |
| `Simulation.RuleOfKey` | src/main.rs:249-251 | no contract of its own: the rule name each key passes to `toggle_rule`; its property is `KeysSwitchRules` |
| `Simulation.KeysSwitchRules` | src/main.rs:249-251 | S, A and C flip separation, alignment and cohesion; every other key leaves the switches alone |
| `Simulation.Spawns` | src/main.rs:145 | no contract of its own: the button is down and the decremented cooldown is at most 0; its properties are `CooldownAfter`, `Spawned`, `NoSpawnTwiceInARow` and `HeldButtonSpawnsWithinSixTicks` |
| `Simulation.CooldownAfter` | src/main.rs:143-153 | a running tick restarts the cooldown at 0.1 when it spawns, and otherwise lowers it by 1/60 |
| `Simulation.NoSpawnTwiceInARow` | src/main.rs:143-153 | a tick right after a spawning tick never spawns |
| `Simulation.HeldButtonSpawnsWithinSixTicks` | src/main.rs:143-153 | from a cooldown of at most 0.1, the invariant `MainState.Valid()`, a held button spawns on one of the next six running ticks, over the reals (in `f32` a just-restarted cooldown runs out on the seventh tick, see "Left out") |
| `Simulation.NewBird` | src/main.rs:151 | no contract of its own: the bird `Bird::new` builds at the mouse with the drawn velocity, alive; its property is `Spawned` |
| `Simulation.Spawned` | src/main.rs:145-152 | when the button is down and the cooldown has run out, exactly one bird is appended; otherwise the flock is unchanged |
| `Simulation.MovedBy` | src/main.rs:156-236 | moving the first `k` birds keeps the flock's length and leaves the birds from `k` on untouched |
| `Simulation.MovedOnce` | src/main.rs:156-236 | a bird, once moved, is not touched again by the rest of the loop |
| `Simulation.BirdMover` | src/main.rs:235 | no contract of its own: a bird is replaced by `update(bird, acceleration, MAX_SPEED, width, height)` with the acceleration it gets from the flock at its turn; its properties are `MovedInIndexOrder` and `MoveFlock` |
| `Simulation.Moved` | src/main.rs:156-236 | the flock after `k` birds of the tick have moved has the flock's length |
| `Simulation.MovedInIndexOrder` | src/main.rs:156-235 | bird `k` is updated with the acceleration from a flock in which the birds before it are already in their final state for this tick and the others are not yet moved |
| `Simulation.Retained` | src/main.rs:238 | no contract of its own: `retain(|bird| bird.is_alive)`; its properties are `RetainedExactlyAlive`, `RetainedConcat`, `RetainedAllAlive` and `KilledAreRemoved` |
| `Simulation.RetainedExactlyAlive` | src/main.rs:238 | `retain` keeps exactly the living birds and never adds any |
| `Simulation.RetainedConcat` | src/main.rs:238 | `retain` keeps the order of the birds |
| `Simulation.RetainedAllAlive` | src/main.rs:238 | a flock of living birds is kept as it is |
| `Simulation.Killed` | src/main.rs:252-256 | key R marks every bird dead and keeps the rest of each bird and the length of the flock |
| `Simulation.KilledAreRemoved` | src/main.rs:252-256 | after key R the next removal leaves no bird |
| `Simulation.MoveFlock` | src/main.rs:156-236 | the loop over the birds computes `Moved` over the whole flock |
| `Simulation.RunningTick` | src/main.rs:142-238 | a running tick yields the new cooldown, and the retained flock after the spawn step and a move of every bird |
| `Simulation.MainState.constructor` | src/main.rs:65-88 | one bird in the middle of the screen moving at (0.1, 0.1), all rules on, cooldown 0.1, running |
| `Simulation.MainState.ToggleRule` | src/main.rs:100-116 | the switches become `ToggleNamed` of the old ones, and no other field changes |
| `Simulation.MainState.TogglePause` | src/main.rs:117-123 | the pause state becomes `TogglePaused` of the old one, and no other field changes |
| `Simulation.MainState.DrawPauseStep` | src/main.rs:281-282 | the pause state becomes `DrawPaused` of the old one, and no other field changes |
| `Simulation.MainState.KeyDownEvent` | src/main.rs:247-261 | S, A, C toggle their rule, R marks every bird dead and removes none, P toggles the pause, and every other key changes nothing |
| `Simulation.MainState.Update` | src/main.rs:128-245 | a tick that is not running changes nothing; a running tick updates the cooldown, spawns, moves every bird in index order and removes the dead ones; the cooldown stays at most 0.1 |
| `Entities.RunsOut` | src/entities.rs:40-42 | no contract of its own: the timer less `seconds` is at most 0; its properties are `NextTimer`, `FirstTurnAtSixthTick` and `Bird.Update` |
| `Entities.NextTimer` | src/entities.rs:40-45 | the timer restarts at 0.1 when it runs out, and otherwise is exactly `seconds` less; with a positive step a timer in (0, 0.1] stays there |
| `Entities.TimerStaysInRange` | src/entities.rs:40-45 | starting from a new bird's 0.1, with a positive step, the timer never leaves (0, 0.1] |
| `Entities.FirstTurnAtSixthTick` | src/entities.rs:40-45 | over the reals, at 1/60 s per update, the timer first runs out on the sixth update and is then back at 0.1 (in `f32` on the seventh, see "Left out") |
| `Entities.Step` | src/entities.rs:34-35 | no contract of its own: the offset `(sin(orient)·SPEED, cos(orient)·SPEED)`; its properties are `StepLength` and `Bird.Update` |
| `Entities.StepLength` | src/entities.rs:34-37 | where `sin² + cos² = 1` at the heading, one update moves the bird by exactly `SPEED` = 1.5 |
| `Entities.Bird.constructor` | src/entities.rs:24-30 | the given position and heading, and a countdown of 0.1 |
| `Entities.Bird.Update` | src/entities.rs:32-48 | the position moves by `(sin·1.5, cos·1.5)` of the old heading; the countdown follows `NextTimer`; the heading changes only when the countdown ran out, and then by the drawn offset in `[-0.261799, 0.261799)`; a valid countdown stays valid |
| `Entities.NewObstacle` | src/entities.rs:74-79 | the position and the radius are stored as given |

## Left out

- Rendering and assets are left out because they are graphics and file I/O.
  This covers `draw` apart from its pause transition, `Bird::draw`,
  src/debug.rs and src/assets.rs.
- The engine bootstrap (`main`, the window set-up and `event::quit` for
  Escape) is left out because it consists of calls into ggez.
- The `timer::check_update_time` loop is left out because it depends on the
  clock. One tick at `seconds = 1/60` is modelled; several ticks are
  consecutive calls of `MainState.Update`.
- The mouse button, the mouse position and the random draws
  (`rng.gen_range`) are parameters. The draws carry their half-open ranges
  as preconditions.
- `f32` rounding is left out: the model works over the reals. Bit-exact
  expected values of tests/tools_test.rs, such as 0.7071067811865475, are
  therefore not stated; the values that are exact over the reals are.
- `Simulation.HeldButtonSpawnsWithinSixTicks` and
  `Entities.FirstTurnAtSixthTick` hold over the reals only. There, 0.1 less
  six steps of 1/60 is exactly zero. In `f32`, `seconds` is
  `1.0 / 60.0` rounded up to 0.016666668. Six such steps from `0.1f32` leave
  about 3.7e-9, which is still positive. So the program's spawn cooldown,
  from a restart, and a new bird's turn countdown both run out one tick
  later, on the seventh. The model does not capture this `f32` tick count.
- `Tools::limit_vector`, which the tests call, does not exist in
  src/tools.rs. Its tests are stated about `limit_velocity`.
- main.rs uses a bird with `vel`, `is_alive`, `Bird::new(Point2,
  Vector2)` and `update(acceleration, MAX_SPEED, width, height)`, and
  src/entities.rs does not define it. `Steering.Bird` stands for that bird
  (position, velocity, liveness; a new bird is alive). `Entities.Bird` models
  the bird src/entities.rs does define.
- The body of that `update(acceleration, …)` is not part of this model, so
  it is the parameter `update: BirdUpdate`. The model assumes only that its
  result depends on its arguments alone. It invents no speed clamping and
  no wrap-around.
- `Steering.Bird` and `BirdUpdate` have real fields only, so a bird cannot
  hold a NaN. The model does not capture what a NaN acceleration
  (`Accel.NotANumber`) does to the bird that receives it. Nor does it
  capture what that bird then does to later scans. In `f32` a bird with a
  NaN position has a NaN distance to every bird, so `distance > 0.0` fails
  and it drops out of every later scan. A NaN velocity makes the alignment
  sum of each of its neighbours NaN. `Steering.AccelerationNaN` and the
  contracts of the scans are therefore stated for flocks of finite birds.
- `Obstacle::update` and `Obstacle::draw` are left out because both are
  `todo!()`. Obstacles are never used in the tick.
- The `println!` output of `toggle_rule` is left out. So are the fields
  `input`, `obstacles`, `game_paused` and `time_until_orient_update` of
  `MainState`, which the modelled code never reads. `assets` is used only
  for drawing, which is left out above. The `gen_range` draws of `rng` are
  the parameters `vx` and `vy` of `MainState.Update`, as the line on random
  draws says.
- `Tools.NormalizeVector` requires a non-zero vector. The source divides
  by a zero length there and gets NaN. Every caller supplies a non-zero
  vector except the cohesion rule, and the cohesion rule's NaN is modelled
  by `Steering.Accel`.
- `Tools.Limited` requires `max >= 0` or a non-zero vector, so that
  `max / speed` is defined. Every caller passes `MAX_STEERING_VELOCITY`,
  which is positive.
- `Simulation.Retained` models `retain` as a function on the sequence. The
  in-place compaction of the `Vec` is not modelled.
