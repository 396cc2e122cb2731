# One-page Pong: the simulation step

A Dafny model of the simulation core of a single-file browser Pong game
(`script.js`). The game keeps three records — the player paddle, the AI
paddle and the ball — and two clock globals (`deltaTime`,
`timeOfLastFrame`). Every animation frame runs `loop`: it computes a frame
step capped at `MAX_STEP`, moves the ball by `speed * direction * deltaTime`,
snaps the AI paddle's centre to the ball's top edge, and then runs
`checkForCollisions`. Pointer moves centre the player paddle on the pointer.

The model is functional: the state is an immutable `World` record over exact
`real` numbers, and each JavaScript function is a pure function from state
to state.

- `Numeric` (numeric.dfy): `Math.min`, `Math.max`, `clamp`, `flipSignValue`.
- `Entities` (entities.dfy): the records, the constants of the initial
  state, and the closed axis-aligned boxes of the hit tests.
- `Motion` (motion.dfy): `STEP`/`MAX_STEP`, the capped `deltaTime`,
  `updatePositions` and `handleMouseMove`.
- `Collisions` (collisions.dfy): `distanceFromCenter`, `resetBall` and
  `checkForCollisions`.
- `GameLoop` (game_loop.dfy): one `loop` call, and a run over a sequence of
  browser callbacks (animation frames and pointer moves).

`checkForCollisions` captures `ball.position` and `ball.direction` once, on
entry, as references. The model makes that heap explicit in the `Collide`
record. It holds the world, the values of the two captured objects, and a
flag that says whether `resetBall` has pointed the ball at fresh objects.
Two consequences follow, and both are proved:

- Before a reset, every write through `ball.direction` also changes the
  captured direction. So the right-wall flip and an AI-paddle flip cancel.
  So do the bottom-wall and top-wall flips.
- After a reset (`x < 0`), the ball is at (50, 50), but the y-wall tests and
  both paddle tests still read the pre-reset position and direction. A ball
  that leaves on the left while above the top edge restarts with the negated
  pre-reset `direction.y`, not with 1. `distanceFromCenter`, on the other
  hand, reads the ball's live position, which is (50, 50) after a reset.

The `ExpectedBall` function states the outcome of `checkForCollisions`
directly, from which rules fire on the entry state. The lemma
`CheckForCollisionsClosedForm` proves that the heap model agrees with it.

The canvas size (`canvas.width`, `canvas.height`) comes from the hosting
page, so it is a parameter (`Canvas`). Browser timestamps and pointer
offsets are parameters too.

## Model

| member | source | states |
|---|---|---|
| Numeric.Min | script.js:42 | `Math.min` returns one of its arguments, and that argument is no larger than either |
| Numeric.Max | script.js:173 | `Math.max` returns one of its arguments, and that argument is no smaller than either |
| Numeric.Clamp | script.js:172-174 | the result is at least `min`; with `min <= max` it lies in [min, max]; an in-range value is returned unchanged; below the range gives `min`, above gives `max`; with inverted bounds the result is `min` |
| Numeric.ClampIdempotent | script.js:172-174 | clamping twice gives the same result as clamping once |
| Numeric.ClampKeepsSign | script.js:172-174 | clamping into a range with 0 strictly inside keeps the sign of the value |
| Numeric.FlipSignValue | script.js:144-146 | the result is the additive inverse: 0 maps to 0, signs swap, the magnitude is kept |
| Numeric.FlipSignValueInvolution | script.js:144-146 | flipping twice returns the original value |
| Entities.PaddleBox | script.js:89-97 | a paddle's box is proper and contains its top-left corner exactly when its width and height are non-negative |
| Entities.BallBox | script.js:99-102 | the ball's box at a given position is proper and contains that position exactly when its size is non-negative |
| Entities.Initial | script.js:8-34 | before the first frame both paddles are at the top with left edges at `25` and `WIDTH - 25` and equal sizes, the ball is at (50, 50) heading (1, 1) and clear of the player paddle, and both clock globals are 0 |
| Entities.Overlap | script.js:105-125 | the four-comparison hit test (the AI test at lines 121-124 lists the same comparisons in another order) holds, for proper boxes, exactly when the boxes' x-spans and y-spans both intersect, edges included |
| Entities.OverlapIffCommonPoint | script.js:105-110 | for proper boxes, the four-comparison hit test holds exactly when the two closed boxes share a point |
| Entities.OverlapSymmetric | script.js:105-110 | the hit test is symmetric in its two boxes: testing the paddle against the ball and the ball against the paddle give the same answer |
| Entities.TouchingEdgeHits | script.js:105-110 | a ball whose left edge lies on a paddle's right edge, within the paddle's height, counts as a hit |
| Motion.MaxStepValue | script.js:5-6 | `MAX_STEP` is 5/60 = 1/12 of a second |
| Motion.FrameDelta | script.js:42 | the frame step never exceeds `MAX_STEP` or the time since the last frame; it is that time whenever that time is at most `MAX_STEP`, and `MAX_STEP` otherwise |
| Motion.UpdatePositions | script.js:58-63 | the ball moves by exactly `speed*direction*deltaTime` on each axis; the AI paddle's centre equals the ball's new top `y`; nothing else changes |
| Motion.UpdatePositionsAdditive | script.js:58-62 | two steps of `a` and `b` seconds move the ball and the AI paddle exactly as one step of `a + b` seconds |
| Motion.UpdatePositionsZeroStep | script.js:58-61 | a zero step leaves the ball unchanged |
| Motion.HandleMouseMove | script.js:167-170 | the player paddle's centre is put at `offsetY`, without clamping; `offsetX` and everything else are untouched |
| Motion.HandleMouseMoveLastWins | script.js:167-170 | of two pointer moves only the second matters |
| Motion.HandleMouseMoveAtCentre | script.js:167-170 | pointing at the paddle's current centre changes nothing |
| Collisions.DistanceFromCenter | script.js:134-142 | the result lies in [-2, 2]; it is 0 exactly when the centres coincide; it is positive exactly when the paddle's centre is below the ball's; below saturation it is the centre offset divided by 100, and it saturates at +-2 beyond an offset of 200 |
| Collisions.ResetBall | script.js:162-165 | the ball is back at (50, 50) with direction (1, 1); size and speed are kept |
| Collisions.Capture | script.js:66-68 | on entry the captured position and direction are the ball's own |
| Collisions.SetDirection | script.js:76 | a write through `ball.direction` reaches the captured direction too, unless the ball was reset; nothing else changes |
| Collisions.SetDirectionX | script.js:76 | `ball.direction.x = v` sets the live `x` to `v` and keeps the live `y`; the captured direction gets the same `x` before a reset and is untouched after one; position, speed, paddles and clock are untouched (the same write recurs at lines 115 and 129) |
| Collisions.SetDirectionY | script.js:82 | `ball.direction.y = v` sets the live `y` to `v` and keeps the live `x`; the captured direction gets the same `y` before a reset and is untouched after one; position, speed, paddles and clock are untouched (the same write recurs at lines 85, 114 and 128) |
| Collisions.RightWall | script.js:75-77 | past the right edge, `direction.x` becomes the negated captured `direction.x`; otherwise nothing changes; position, speed and both paddles never change |
| Collisions.LeftExit | script.js:78-80 | past the left edge the ball is reset and detached from the captured objects, which keep their pre-reset values; otherwise nothing changes |
| Collisions.BottomWall | script.js:81-83 | past the bottom edge, `direction.y` becomes the negated captured `direction.y`; otherwise nothing changes; position, speed and both paddles never change |
| Collisions.TopWall | script.js:84-86 | above the top edge, `direction.y` becomes the negated captured `direction.y`; otherwise nothing changes; position, speed and both paddles never change |
| Collisions.Hits | script.js:99-110 | before a reset, the test on the captured box is the test on the ball's own box (after a reset it keeps using the captured box, as `ResetThenPaddleHit` shows) |
| Collisions.PaddleHit | script.js:104-130 | on a closed-box hit at the captured position, `direction.y` becomes minus the clamped `distanceFromCenter` (so its magnitude is at most 2) and `direction.x` the negated captured `direction.x`; without a hit nothing changes |
| Collisions.CheckForCollisions | script.js:65-132 | paddles, clock, speed and size are untouched; the position becomes (50, 50) exactly when `x < 0` and is kept otherwise; `abs(direction.x) = 1` and `abs(direction.y) <= 2` are preserved |
| Collisions.CheckForCollisionsClosedForm | script.js:65-132 | the heap model of the call agrees with the direct description `ExpectedBall` of which rules fire on the entry state |
| Collisions.DoubleFlipCancels | script.js:75-130 | before any reset, if the right wall and the AI paddle both fire and the player paddle does not, `direction.x` ends where it started |
| Collisions.BothYWallsCancel | script.js:81-86 | before any reset, if the bottom and top rules both fire and no paddle is hit, `direction.y` ends where it started |
| Collisions.ResetKeepsStaleSnapshot | script.js:78-86 | after a left exit without a paddle hit, the ball is at (50, 50) with `direction.x` 1, but `direction.y` is the negated pre-reset value whenever the pre-reset position crossed a y-wall |
| Collisions.ResetThenPaddleHit | script.js:78-116 | after a left exit, a paddle hit on the pre-reset box still fires and sets `direction.x` from the captured pre-reset direction |
| Collisions.ResetExample | script.js:78-86 | on an 800 by 600 canvas, a ball leaving at (-5, -3) with direction (-1, 0.5) restarts with direction (1, -0.5) |
| GameLoop.Loop | script.js:39-49 | after a frame, `timeOfLastFrame` is the frame time in seconds, `deltaTime` is the capped step and at most `MAX_STEP`, and the player paddle is untouched |
| GameLoop.LoopAiTracksBall | script.js:47-62 | unless the moved ball is left of 0, a frame ends with the AI paddle's centre level with the ball's top edge |
| GameLoop.InitialPlayable | script.js:13-34 | the initial state satisfies the frame invariant `Playable` |
| GameLoop.ResetRestoresInitialBall | script.js:162-165 | for any ball that has kept its size and speed, `resetBall` yields exactly the ball of the initial state (lines 27-34) |
| GameLoop.Run | script.js:39-54 | every sequence of frames and pointer moves preserves `Playable`: sizes, speed, paddle columns, `abs(direction.x) = 1`, `abs(direction.y) <= 2`, `deltaTime <= MAX_STEP` |
| GameLoop.RunFollowsLastPointer | script.js:167-170 | after any sequence of callbacks the player paddle is centred on the latest pointer `offsetY`, or untouched if there was none |

## Left out

- Drawing (`drawRect`, the unused `drawCircle`, `ctx.clearRect`) and the `fillStyle` colours: rendering side effects with nothing to verify.
- `requestAnimationFrame` scheduling and the `mousemove` listener wiring: browser plumbing. `GameLoop.Run` takes the callbacks as a sequence of events instead.
- `console.log` calls: logging only.
- IEEE-754 rounding of JavaScript numbers: the model uses exact reals, so `0.01`, `1 / 60` and `ms / 1000` are exact. NaN and infinities do not arise.
- The canvas size: it is set by the page that hosts the script, which is not part of this model, so it is a parameter.
