# A verified model of a top-down racing game

The game (a single Python/pygame program, `main.py`) lets a player race a
computer-driven car around a track over ten levels. This project models, in
Dafny, the part of the program with real logic:

- **Car kinematics** (`AbstractCar`, `PlayerCar`): a signed scalar velocity
  changed by `min`/`max` clamps, a heading in degrees changed by plain
  additions, and a position integrated once per call. Module `Kinematics`,
  file `kinematics.dfy`.
- **Waypoint pursuit** (`ComputerCar`): the turn step toward the current
  waypoint, the waypoint index as a state machine over `0 .. len(path)`, the stop
  once the path is exhausted, the per-level speed ramp, and the path growing
  when the player clicks. Module `Pilot`, file `pilot.dfy`.
- **Level bookkeeping** (`GameInfo`): level counter, started flag and start
  time, with `LEVELS = 10`. Module `Levels`, file `levels.dfy`.
- **Race control** (`move_player`, `handle_collision`, the game-finished branch
  and the event loop of the main loop): the fixed-order collision rules (border
  bounce, then loss when the computer car reaches the finish, then a won level
  or a graze bounce for the player), the victory reset, and one whole iteration
  of the main loop. Module `Race`, file `race.dfy`.
- Shared helpers (`Option`, points, Python's `min`, `max`, `abs` and `int()`
  on floats): module `Basics`, file `basics.dfy`.

Every module has two layers. Value-level functions over datatypes (`Kin`,
`Pursuit`, `Info`, `World`) state what each operation does. Classes (`Car`,
`ComputerCar`, `GameInfo`, `Game`) keep the program's fields and update them
in place, and every method is proved to change the object exactly as the
corresponding function says. The lemmas are about the functions: the player's
speed band, no overshoot in the turn step, the waypoint index never leaving
`0 .. len(path)`, exactly ten level-ups to win, coasting coming to rest, and the
main-loop invariant kept by every iteration.

What is taken as given rather than modelled: sine and cosine of an angle in
degrees and `degrees(atan(z))` (the datatype `Trig`), the pixel-mask overlap
query of the graphics library (the function type `Overlap`), the sprite sizes
(`Sprite`), the clock reading (`now`), the keyboard state (`Keys`) and the
event queue (a sequence of `Event`s) and the cursor position (a `Point`),
bundled per iteration of the main loop as an `Input`.

Three behaviours of the program are worth stating outright, because the
model follows them:
- Not every car keeps `abs(vel) <= max_vel`. The computer car does not: from
  level 2 on it is set to `max_vel + (level - 1) * 0.111`. The speed band is
  proved for the player car only. For the computer car the model proves only
  that its velocity is never negative.
- Once the path is exhausted the computer car does not keep moving:
  `ComputerCar.move` returns before moving, so the car stops dead.
  `Pilot.ExhaustedPathIsFinal` proves this.
- After a won game, the program resets the computer car with the plain
  `reset`, not with `next_level(1)`. That leaves it at rest: `vel = 0`, at its
  start, still chasing its old waypoint index, until the player wins the next
  level. `Race.VictoryParksComputer` proves it stays put all that time.

## Model

| member | source | states |
|---|---|---|
| `Basics.Trunc` | main.py:139 | `int()` on a float truncates toward zero: the result is within one of the argument, on the argument's side of zero |
| `Levels.Initial` | main.py:71-74 | a new GameInfo is at the given level, not started, start time 0 |
| `Levels.AfterNextLevel` | main.py:76-78 | next_level raises the level by one, clears `started`, keeps the start time |
| `Levels.AfterReset` | main.py:80-83 | reset gives level 1, not started, time 0, and that state is not finished |
| `Levels.AfterStart` | main.py:88-90 | start_level marks the level started at the given time, level unchanged |
| `Levels.LevelTime` | main.py:92-95 | the level time is 0 before the start, and never negative once the clock reading is at or past the start time |
| `Levels.TimerMeasuresSinceStart` | main.py:88-95 | after a start at `s`, the timer reads `now - s`; after the next level it reads 0 again |
| `Levels.AdvanceRaisesLevel` | main.py:76-78 | `n` next_level calls raise the level by exactly `n`, keep the start time, and leave the level not started |
| `Levels.TenLevelsFinishTheGame` | main.py:69-86 | from reset, the game is finished after `n` level-ups if and only if `n >= 10` |
| `Levels.GameInfo.constructor` | main.py:71-74 | the object starts in `Initial(level)` |
| `Levels.GameInfo.NextLevel` | main.py:76-78 | the fields become `AfterNextLevel` of the old ones |
| `Levels.GameInfo.Reset` | main.py:80-83 | the fields become `AfterReset()` |
| `Levels.GameInfo.GameFinished` | main.py:85-86 | true exactly when the level passed LEVELS |
| `Levels.GameInfo.StartLevel` | main.py:88-90 | the fields become `AfterStart` at the given clock reading |
| `Levels.GameInfo.GetLevelTime` | main.py:92-95 | returns `LevelTime` of the fields at the given clock reading |
| `Kinematics.ForwardVel` | main.py:117-118 | forward throttle never exceeds `max_vel` or `vel + acceleration`, equals one of them, and keeps the speed band |
| `Kinematics.BackwardVel` | main.py:121-122 | reverse throttle never goes below `-max_vel / 2` or `vel - acceleration`, equals one of them, and keeps the speed band |
| `Kinematics.IdleVel` | main.py:133-134 | coasting never makes the velocity negative; at most half an acceleration turns it to exactly 0; any negative velocity becomes 0 in one call; it never grows; the band is kept |
| `Kinematics.BounceVel` | main.py:143-144 | a bounce flips the sign of the velocity and halves its magnitude, keeping the band |
| `Kinematics.Moved` | main.py:125-131 | a move keeps heading and velocity, and at velocity 0 it changes nothing |
| `Kinematics.MoveCoversVelocity` | main.py:125-131 | if sin² + cos² = 1, one move covers exactly the distance `abs(vel)` |
| `Kinematics.Rotated` | main.py:108-112 | left adds the rotation step; otherwise right subtracts it; with neither nothing changes; rotation never moves the car |
| `Kinematics.LeftThenRightCancels` | main.py:108-112 | a left turn then a right turn restore the original state |
| `Kinematics.Forward` | main.py:117-119 | move_forward sets `ForwardVel` and then moves at the new velocity |
| `Kinematics.Backward` | main.py:121-123 | move_backward sets `BackwardVel` and then moves at the new velocity |
| `Kinematics.Idle` | main.py:133-135 | reduce_speed sets `IdleVel` and moves at it; a car at rest stays exactly where it is |
| `Kinematics.Bounced` | main.py:143-145 | bounce reflects the velocity and moves the car back by half the step a plain move would take |
| `Kinematics.IdleTicksVelocity` | main.py:133-135 | after `n >= 1` coasting ticks the velocity is exactly `max(vel - n * acceleration / 2, 0)`, so it falls steadily and never passes 0 |
| `Kinematics.IdleAtRestStays` | main.py:133-135 | a car at rest that keeps coasting never moves |
| `Kinematics.IdleComesToRest` | main.py:133-135 | enough coasting ticks bring any velocity to exactly 0, and from then on the car stays put |
| `Kinematics.Car.constructor` | main.py:99-106 | a new car is at its start, heading 0, at rest, with the given parameters |
| `Kinematics.Car.Rotate` | main.py:108-112 | the fields become `Rotated` of the old ones |
| `Kinematics.Car.MoveForward` | main.py:117-119 | the fields become `Forward` of the old ones |
| `Kinematics.Car.MoveBackward` | main.py:121-123 | the fields become `Backward` of the old ones |
| `Kinematics.Car.Move` | main.py:125-131 | the fields become `Moved` of the old ones |
| `Kinematics.Car.ReduceSpeed` | main.py:133-135 | the fields become `Idle` of the old ones |
| `Kinematics.Car.Collide` | main.py:137-141 | the overlap query with the car's offset from the mask truncated by `int()` |
| `Kinematics.Car.Bounce` | main.py:143-145 | the fields become `Bounced` of the old ones |
| `Kinematics.Car.Reset` | main.py:147-150 | the car is back at its start, heading 0, at rest |
| `Pilot.HeadingError` | main.py:184-187 | the heading error is the raw difference minus 360 when the raw difference is 180 or more, and the raw difference otherwise; it is below 180 whenever the raw difference is below 540 |
| `Pilot.AimIsDesiredDirection` | main.py:184-187 | the heading the turn aims at is the desired one or the desired one plus 360 |
| `Pilot.TurnStep` | main.py:184-192 | at non-negative speed the heading turns by exactly `min(vel, abs(error))` toward the aim, never past it; the remaining error is `max(abs(error) - vel, 0)`; at zero error nothing changes |
| `Pilot.SingleCorrectionMayTurnTheLongWay` | main.py:186-192 | heading 0 with desired 260 gives error -260, so the car turns the long way (one subtraction, no modulo) |
| `Pilot.DesiredHeading` | main.py:172-184 | a target level with the car gives 90 (no +180); a target above gives `degrees(atan(dx/dy))`; a target below gives that plus 180 |
| `Pilot.ComputerMoved` | main.py:194-207 | with the path exhausted nothing changes; otherwise the index rises by at most 1, and by 1 exactly when the car's rectangle contains the current waypoint; the heading is the turn step toward it and the car then moves `vel` along the new heading; the index stays between 0 and the path length; velocity and path are untouched; a car at rest neither turns nor moves |
| `Pilot.RunProgress` | main.py:194-207 | over `n` moves the index never falls, rises by at most `n` and stays within the path |
| `Pilot.ExhaustedPathIsFinal` | main.py:200-202 | once the path is exhausted, any number of moves leaves the computer car exactly as it is |
| `Pilot.ParkedCarStays` | main.py:184-207 | a computer car at rest keeps its position and heading over any number of moves |
| `Pilot.LevelSpeed` | main.py:211 | the level speed is `max_vel` at level 1 and at least `max_vel` at every later level |
| `Pilot.LevelSpeedIncreases` | main.py:211 | the level speed rises strictly with the level |
| `Pilot.ComputerNextLevel` | main.py:209-212 | next_level puts the car at its start, heading 0, at the level speed, chasing waypoint 0 of the same path |
| `Pilot.ComputerReset` | main.py:147-150 | the plain reset puts the computer car at rest at its start and keeps path and index |
| `Pilot.Appended` | main.py:327 | appending a point keeps the existing waypoints, the index and the car; it keeps the index in range; an exhausted path gets a waypoint to chase again |
| `Pilot.ComputerCar.constructor` | main.py:157-161 | a new computer car is at its start at top speed, chasing waypoint 0 |
| `Pilot.ComputerCar.CalculateAngle` | main.py:171-192 | only the heading changes, to the turn step toward the current waypoint |
| `Pilot.ComputerCar.UpdatePathPoints` | main.py:194-198 | the index rises by one exactly when the car's rectangle contains the current waypoint |
| `Pilot.ComputerCar.Move` | main.py:200-207 | the state becomes `ComputerMoved` of the old one |
| `Pilot.ComputerCar.NextLevel` | main.py:209-212 | the state becomes `ComputerNextLevel` of the old one |
| `Pilot.ComputerCar.AppendPoint` | main.py:327 | the state becomes `Appended` of the old one |
| `Race.InitialWorld` | main.py:299-302 | the program starts at level 1, not started; the player car at rest at (160, 190) with heading 0; the computer car at (135, 190) with heading 0, speed 2.4, on the track's path at waypoint 0; the state satisfies the invariant |
| `Race.PlayerDriven` | main.py:242-259 | the keys act in the order left, right, forward, reverse; without throttle the car coasts; the resulting velocity is the matching clamp; the heading gains one rotation step per turn key; the car turns before it moves, ending one `Moved` step from where it stood along the new heading at the final velocity, or two steps (first at the forward velocity) with both throttle keys; the speed band is kept |
| `Race.PlayerDrivenPosition` | main.py:244-259 | with one throttle key or none, the car ends `vel` pixels from where it stood along its new heading: x falls by vel times the sine, y by vel times the cosine |
| `Race.BothThrottlesPosition` | main.py:250-255 | with both throttle keys held, the car covers a step at the forward velocity and then a step at the final velocity, both along its new heading |
| `Race.Steered` | main.py:246-249 | the turn keys change only the heading, by one rotation step for left and minus one for right |
| `Race.Throttled` | main.py:250-259 | the throttle keys keep the heading; the velocity is the clamp for the keys held, and the car takes one move (two with both keys) from where it stood |
| `Race.BorderResolved` | main.py:263-264 | a player car touching the border bounces; nothing else changes |
| `Race.ComputerFinishResolved` | main.py:266-275 | the computer car reaching the finish resets the game to level 1, the player car to its start and the computer car to level-1 speed at waypoint 0 |
| `Race.PlayerFinishResolved` | main.py:277-287 | a finish hit whose point has y = 0 bounces the player and keeps the level; any other finish hit raises the level by one, resets the player and sets the computer car to `max_vel + (level - 1) * 0.111` at waypoint 0 |
| `Race.CollisionsResolved` | main.py:262-287 | the three rules in order keep the path and the consistency of the state, and raise the level by at most one |
| `Race.VictoryResolved` | main.py:333-339 | once the level exceeds 10, level info and player are reset and the computer car is left at rest at its start with its index unchanged; the loop invariant is re-established |
| `Race.VictoryParksComputer` | main.py:333-339 | after a won game the computer car stays at its start, heading 0, over any number of moves |
| `Race.Clicks` | main.py:320-327 | the event loop appends at most one point per event |
| `Race.ClicksAreCursor` | main.py:320-327 | every appended point is the cursor position read while the queue is handled; a queue with a click and no quit event appends at least one point |
| `Race.ClicksConcat` | main.py:320-327 | handling a queue without a quit event and then another appends the points of the first and then those of the second |
| `Race.QuitDropsTheRest` | main.py:321-323 | every event after the first quit event is ignored |
| `Race.EveryClickAppends` | main.py:325-327 | after a quit-free queue, one more click appends one more cursor point and one more key press appends nothing |
| `Race.Ticked` | main.py:304-339 | one iteration of the main loop keeps the invariant (player speed band, index in range, level in 1..10) and changes the path only by the clicked points |
| `Race.PlayKeepsInvariant` | main.py:304-339 | any number of iterations from an invariant state keeps the invariant |
| `Race.Game.constructor` | main.py:299-302 | the player car carries the red car image and the computer car the green one, and the objects start in `InitialWorld()` |
| `Race.Game.MovePlayer` | main.py:242-259 | the player car becomes `PlayerDriven` by the keys |
| `Race.Game.HandleCollision` | main.py:262-287 | the game state becomes `CollisionsResolved` of the old one |
| `Race.Game.CheckVictory` | main.py:333-339 | the game state becomes `VictoryResolved` of the old one |
| `Race.Game.WaitForStart` | main.py:308-318 | a level not yet started becomes started at the key press time; a started one is untouched |
| `Race.Game.ProcessEvents` | main.py:320-327 | the path grows by the clicked points, the index is kept, and the result says whether a quit event came |
| `Race.Game.Tick` | main.py:304-339 | the game state becomes `Ticked` of the old one, and the loop goes on exactly when no quit event came |

## Left out

- Drawing, fonts, text messages, `draw`, `draw_points`, the `utils` helpers and display updates: these are display output.
- Image loading, scaling and the construction and scanning of pixel masks: the overlap query is the given function `Overlap`, whose scan order belongs to the graphics library.
- Trigonometry: sine, cosine and `degrees(atan(z))` are the given functions of `Trig`. `calculate_angle` works in radians and converts to degrees. The model works in degrees and takes `degrees(pi / 2) = 90` and `degrees(a + pi) = degrees(a) + 180` as exact.
- Floating-point rounding: every number is a `real`, so the `0.08` and `0.111` steps accumulate exactly. The program's mix of `int` and `float` values (an initial velocity of `0`, say) needs no modelling.
- The float-to-integer conversion of the corner of `pygame.Rect`: taken as truncation toward zero, the same as `int()`.
- The frame clock (`clock.tick`), the 4.5-second pauses after a win or a loss, and `time.time()`: time is the parameter `now`.
- The blocking "press any key" loop is modelled by its result: the level becomes started at the time of the key press. Extra key presses in the same poll, which restart the timer at later readings, are not modelled. Neither is a quit event during that wait: the program closes the display and the `break` leaves only the `for` over the events, so the next display or event call raises an error of the graphics library and the program ends (main.py:308-320). That call is the drawing in the next round of the wait loop, or, when a key press in the same poll already started the level, the event poll of the main loop.
- The cursor position: the program reads it with `pygame.mouse.get_pos()` when it handles each click (main.py:326), which is where the cursor is then, not where the click happened. The model reads it once per poll (`Input.cursor`), so every click of one queue appends the same point.
- The termination of the `while run` loop: a quit event sets `run` to false, and the loop stops after the rest of that iteration (main.py:304, 321-322). One iteration is modelled as `Ticked`, whose caller `Game.Tick` reports whether the loop goes on. A run of several iterations is modelled as `Play` over a sequence of `Input`s, which applies `Ticked` to every input, even after a quit. `PlayKeepsInvariant` holds for every input sequence, so it also covers every prefix that ends at the first quit, which is what the program actually runs.
- Subclassing: `ComputerCar` holds a `Car` instead of inheriting from it. Python's dynamic dispatch would send `move_forward`, `move_backward`, `reduce_speed` and `bounce` of a computer car to the overriding `move`. The program never calls these on the computer car, so nothing observable is lost.
- The mutable default argument `path=[]`, and the sharing of the global `PATH` list with the computer car: the model copies the path value into the car.
- Pilot.TurnStep: its turn-toward-the-aim clauses are stated for a non-negative velocity only; with a negative velocity the step turns away. The computer car's velocity is proved never negative (`Race.Consistent`), so that case never arises.
