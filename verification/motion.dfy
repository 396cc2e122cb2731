/**
 The non-colliding parts of a frame: the capped frame step computed in
 `loop`, `updatePositions` (the ball moves, the AI paddle follows it) and
 `handleMouseMove` (the player paddle follows the pointer).
 */
module Motion {
  import opened Numeric
  import opened Entities

  /** `STEP`: one sixtieth of a second. */
  const STEP: real := 1.0 / 60.0
  /** `MAX_STEP`: the longest step a single frame may simulate. */
  const MAX_STEP: real := STEP * 5.0

  /** The `deltaTime` computed by `loop`: the time since the previous frame,
      capped at `MAX_STEP` (there is no lower cap). */
  function FrameDelta(currentTime: real, timeOfLastFrame: real): (dt: real)
    ensures dt <= MAX_STEP
    ensures dt <= currentTime - timeOfLastFrame
    ensures currentTime - timeOfLastFrame <= MAX_STEP ==> dt == currentTime - timeOfLastFrame
    ensures currentTime - timeOfLastFrame >= MAX_STEP ==> dt == MAX_STEP
  {
    Min(currentTime - timeOfLastFrame, MAX_STEP)
  }

  /** `MAX_STEP` is five sixtieths, that is one twelfth, of a second. */
  lemma MaxStepValue()
    ensures MAX_STEP == 5.0 / 60.0 == 1.0 / 12.0
  {
  }

  /** `updatePositions`: the ball moves by `speed * direction * deltaTime`
      on each axis, the AI paddle is placed so that its centre is level with
      the ball's top edge, and nothing else changes. */
  function UpdatePositions(w: World): (r: World)
    ensures r.ball.position.x - w.ball.position.x == w.ball.speed * w.ball.direction.x * w.deltaTime
    ensures r.ball.position.y - w.ball.position.y == w.ball.speed * w.ball.direction.y * w.deltaTime
    ensures PaddleCentre(r.ai) == r.ball.position.y
    ensures r.ball.(position := w.ball.position) == w.ball
    ensures r.ai.(position := w.ai.position) == w.ai && r.ai.position.x == w.ai.position.x
    ensures r.player == w.player
    ensures r.deltaTime == w.deltaTime && r.timeOfLastFrame == w.timeOfLastFrame
  {
    var b := w.ball;
    var pos := Vec(b.position.x + b.speed * b.direction.x * w.deltaTime,
                   b.position.y + b.speed * b.direction.y * w.deltaTime);
    w.(ball := b.(position := pos),
       ai := w.ai.(position := w.ai.position.(y := pos.y - w.ai.height / 2.0)))
  }

  /** Splitting a step in two moves the ball and the AI paddle exactly as
      far as taking it in one go. */
  lemma UpdatePositionsAdditive(w: World, a: real, b: real)
    ensures UpdatePositions(UpdatePositions(w.(deltaTime := a)).(deltaTime := b)).ball
            == UpdatePositions(w.(deltaTime := a + b)).ball
    ensures UpdatePositions(UpdatePositions(w.(deltaTime := a)).(deltaTime := b)).ai
            == UpdatePositions(w.(deltaTime := a + b)).ai
  {
    var d := w.ball.direction;
    var s := w.ball.speed;
    assert s * d.x * a + s * d.x * b == s * d.x * (a + b);
    assert s * d.y * a + s * d.y * b == s * d.y * (a + b);
  }

  /** A zero step leaves the ball where it is. */
  lemma UpdatePositionsZeroStep(w: World)
    requires w.deltaTime == 0.0
    ensures UpdatePositions(w).ball == w.ball
  {
  }

  /** `handleMouseMove`: the player paddle's centre is put at the pointer's
      `offsetY`, with no clamping to the canvas; `offsetX` is ignored and
      nothing else changes. */
  function HandleMouseMove(w: World, offsetX: real, offsetY: real): (r: World)
    ensures PaddleCentre(r.player) == offsetY
    ensures r.player.(position := w.player.position) == w.player
    ensures r.player.position.x == w.player.position.x
    ensures r.ai == w.ai && r.ball == w.ball
    ensures r.deltaTime == w.deltaTime && r.timeOfLastFrame == w.timeOfLastFrame
  {
    w.(player := w.player.(position := w.player.position.(y := offsetY - w.player.height / 2.0)))
  }

  /** Only the latest pointer event matters. */
  lemma HandleMouseMoveLastWins(w: World, x1: real, y1: real, x2: real, y2: real)
    ensures HandleMouseMove(HandleMouseMove(w, x1, y1), x2, y2) == HandleMouseMove(w, x2, y2)
  {
  }

  /** Pointing at the paddle's current centre leaves the world unchanged. */
  lemma HandleMouseMoveAtCentre(w: World, x: real)
    ensures HandleMouseMove(w, x, PaddleCentre(w.player)) == w
  {
  }
}
