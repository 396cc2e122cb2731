/**
 The three entities of the game (the player paddle, the AI paddle and the
 ball), the canvas they live on, the two frame-clock globals, and the
 axis-aligned bounding boxes used by the hit tests. Colours (`fillStyle`)
 only matter for drawing and are not part of the records.
 */
module Entities {
  import opened Numeric

  datatype Vec = Vec(x: real, y: real)

  datatype Paddle = Paddle(height: real, position: Vec, width: real)

  datatype Ball = Ball(direction: Vec, height: real, speed: real, position: Vec, width: real)

  /** `canvas.width` and `canvas.height`, fixed by the page that hosts the game. */
  datatype Canvas = Canvas(width: real, height: real)

  /** Everything the game mutates: the three entities plus the globals
      `deltaTime` and `timeOfLastFrame` (seconds). */
  datatype World = World(player: Paddle, ai: Paddle, ball: Ball, deltaTime: real, timeOfLastFrame: real)

  const PADDLE_HEIGHT: real := 100.0
  const PADDLE_WIDTH: real := 20.0
  /** The player paddle's x; the AI paddle sits this far in from the right edge. */
  const PADDLE_INSET: real := 25.0
  const BALL_SIZE: real := 20.0
  const BALL_SPEED: real := 500.0
  /** Where `resetBall` (and the initial state) puts the ball, and where it sends it. */
  const START_POSITION: Vec := Vec(50.0, 50.0)
  const START_DIRECTION: Vec := Vec(1.0, 1.0)

  /** The state before the first frame: both paddles at the top, placed
      symmetrically about the canvas's horizontal middle by their left
      edges, the ball at its start position and clear of the player paddle,
      and both clock globals at 0. */
  function Initial(canvas: Canvas): (w: World)
    ensures w.player.position.y == 0.0 && w.ai.position.y == 0.0
    ensures w.player.position.x == PADDLE_INSET
    ensures w.player.position.x + w.ai.position.x == canvas.width
    ensures w.player.height == w.ai.height && w.player.width == w.ai.width
    ensures w.ball.position == START_POSITION && w.ball.direction == START_DIRECTION
    ensures !Overlap(PaddleBox(w.player), BallBox(w.ball.position, w.ball))
    ensures w.deltaTime == 0.0 && w.timeOfLastFrame == 0.0
  {
    World(
      player := Paddle(PADDLE_HEIGHT, Vec(PADDLE_INSET, 0.0), PADDLE_WIDTH),
      ai := Paddle(PADDLE_HEIGHT, Vec(canvas.width - PADDLE_INSET, 0.0), PADDLE_WIDTH),
      ball := Ball(START_DIRECTION, BALL_SIZE, BALL_SPEED, START_POSITION, BALL_SIZE),
      deltaTime := 0.0,
      timeOfLastFrame := 0.0)
  }

  /** Vertical centre of a paddle. */
  function PaddleCentre(p: Paddle): real
  {
    p.position.y + p.height / 2.0
  }

  /** Vertical centre of the ball. */
  function BallCentre(b: Ball): real
  {
    b.position.y + b.height / 2.0
  }

  /** The closed intervals [lo1, hi1] and [lo2, hi2] intersect: the larger
      of the lower ends is at most the smaller of the upper ends. */
  predicate SpansMeet(lo1: real, hi1: real, lo2: real, hi2: real)
  {
    Max(lo1, lo2) <= Min(hi1, hi2)
  }

  /** A closed axis-aligned box: every point with x1 <= x <= x2 and y1 <= y <= y2. */
  datatype Box = Box(x1: real, x2: real, y1: real, y2: real)

  predicate Proper(b: Box)
  {
    b.x1 <= b.x2 && b.y1 <= b.y2
  }

  predicate Contains(b: Box, p: Vec)
  {
    b.x1 <= p.x <= b.x2 && b.y1 <= p.y <= b.y2
  }

  /** The box of a paddle. */
  function PaddleBox(p: Paddle): (r: Box)
    ensures p.width >= 0.0 && p.height >= 0.0 ==> Proper(r)
    ensures Contains(r, p.position)
            <==> p.width >= 0.0 && p.height >= 0.0
  {
    Box(p.position.x, p.position.x + p.width, p.position.y, p.position.y + p.height)
  }

  /** The box of the ball when its top-left corner is at `pos`; the position
      is a parameter because the collision code reads a captured one. */
  function BallBox(pos: Vec, b: Ball): (r: Box)
    ensures b.width >= 0.0 && b.height >= 0.0 ==> Proper(r)
    ensures Contains(r, pos) <==> b.width >= 0.0 && b.height >= 0.0
  {
    Box(pos.x, pos.x + b.width, pos.y, pos.y + b.height)
  }

  /** The hit test of the game: a paddle box and a ball box overlap, edges
      included. For proper boxes that is: their x-spans and their y-spans
      both intersect. */
  predicate Overlap(paddle: Box, ball: Box)
    ensures Proper(paddle) && Proper(ball) ==>
            (Overlap(paddle, ball)
             <==> SpansMeet(paddle.x1, paddle.x2, ball.x1, ball.x2)
                  && SpansMeet(paddle.y1, paddle.y2, ball.y1, ball.y2))
  {
    paddle.x2 >= ball.x1 && paddle.x1 <= ball.x2 && paddle.y1 <= ball.y2 && paddle.y2 >= ball.y1
  }

  /** For proper boxes the hit test holds exactly when the two closed boxes
      share a point. */
  lemma OverlapIffCommonPoint(a: Box, b: Box)
    requires Proper(a) && Proper(b)
    ensures Overlap(a, b) <==> exists p :: Contains(a, p) && Contains(b, p)
  {
    if Overlap(a, b) {
      var p := Vec(Max(a.x1, b.x1), Max(a.y1, b.y1));
      assert Contains(a, p) && Contains(b, p);
    }
  }

  /** The hit test is symmetric in its two boxes. */
  lemma OverlapSymmetric(a: Box, b: Box)
    ensures Overlap(a, b) <==> Overlap(b, a)
  {
  }

  /** Touching edges count as a hit: a ball whose left edge lies on a
      paddle's right edge, at any height within the paddle's span, hits it. */
  lemma TouchingEdgeHits(paddle: Box, ball: Box)
    requires Proper(paddle) && Proper(ball)
    requires ball.x1 == paddle.x2
    requires paddle.y1 <= ball.y1 <= paddle.y2
    ensures Overlap(paddle, ball)
  {
  }
}
