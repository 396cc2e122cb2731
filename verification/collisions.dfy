/**
 `checkForCollisions`, `distanceFromCenter` and `resetBall`.

 The JavaScript captures `ball.position` and `ball.direction` once, at the
 top of `checkForCollisions`, as references to two objects. Until `resetBall`
 runs, the ball still points at those objects, so a write through
 `ball.direction` is seen by every later read of the captured direction.
 `resetBall` points the ball at fresh objects; from then on writes go to the
 fresh direction only, while every later test keeps reading the captured,
 pre-reset position and direction. `Collide` models that heap explicitly.
 */
module Collisions {
  import opened Numeric
  import opened Entities

  /** `distanceFromCenter(ball, paddle)`: the paddle's centre minus the
      ball's centre, scaled by 0.01 and clamped to [-2, 2]. Screen y grows
      downwards, so the result is positive exactly when the paddle's centre
      is below the ball's; clamping never changes that sign. */
  function DistanceFromCenter(b: Ball, paddle: Paddle): (r: real)
    ensures -2.0 <= r <= 2.0
    ensures r > 0.0 <==> PaddleCentre(paddle) > BallCentre(b)
    ensures r < 0.0 <==> PaddleCentre(paddle) < BallCentre(b)
    ensures r == 0.0 <==> PaddleCentre(paddle) == BallCentre(b)
    ensures Abs(PaddleCentre(paddle) - BallCentre(b)) <= 200.0
            ==> r * 100.0 == PaddleCentre(paddle) - BallCentre(b)
    ensures PaddleCentre(paddle) - BallCentre(b) >= 200.0 ==> r == 2.0
    ensures PaddleCentre(paddle) - BallCentre(b) <= -200.0 ==> r == -2.0
  {
    var ballYCenter := b.position.y + b.height / 2.0;
    var paddleYCenter := paddle.position.y + paddle.height / 2.0;
    var distance := (paddleYCenter - ballYCenter) * 0.01;
    Clamp(distance, -2.0, 2.0)
  }

  /** `resetBall`: the ball goes back to its starting position and
      direction; its size and speed stay. */
  function ResetBall(b: Ball): (r: Ball)
    ensures r.position == START_POSITION && r.direction == START_DIRECTION
    ensures r.(position := b.position, direction := b.direction) == b
  {
    b.(position := Vec(50.0, 50.0), direction := Vec(1.0, 1.0))
  }

  /** The heap during one `checkForCollisions` call.
      `world.ball.direction` is the value of the object the ball currently
      points at; `ballPos` and `ballDir` are the values of the objects
      captured on entry; `detached` says whether `resetBall` has run, that
      is whether the ball no longer points at the captured objects. */
  datatype Collide = Collide(world: World, ballPos: Vec, ballDir: Vec, detached: bool)

  /** While the ball still points at the captured objects, the two views
      agree. */
  predicate Coherent(c: Collide)
  {
    !c.detached ==> c.world.ball.direction == c.ballDir && c.world.ball.position == c.ballPos
  }

  /** The capture on entry to `checkForCollisions`. */
  function Capture(w: World): (c: Collide)
    ensures Coherent(c) && !c.detached && c.world == w
  {
    Collide(w, w.ball.position, w.ball.direction, false)
  }

  /** `ball.direction = d`: the object the ball points at takes the value
      `d`; it is the captured one unless the ball was reset. */
  function SetDirection(c: Collide, d: Vec): (r: Collide)
    requires Coherent(c)
    ensures Coherent(r)
    ensures r.world.ball.direction == d
    ensures r.world.ball.(direction := c.world.ball.direction) == c.world.ball
    ensures r.world.(ball := c.world.ball) == c.world
    ensures r.ballPos == c.ballPos && r.detached == c.detached
    ensures r.ballDir == (if c.detached then c.ballDir else d)
  {
    var w := c.world.(ball := c.world.ball.(direction := d));
    if c.detached then c.(world := w) else c.(world := w, ballDir := d)
  }

  /** `ball.direction.x = v`. */
  function SetDirectionX(c: Collide, v: real): (r: Collide)
    requires Coherent(c)
    ensures Coherent(r)
    ensures r.world.ball.direction == c.world.ball.direction.(x := v)
    ensures r.ballDir == (if c.detached then c.ballDir else c.ballDir.(x := v))
    ensures KeepsAllButDirection(c, r)
  {
    SetDirection(c, c.world.ball.direction.(x := v))
  }

  /** `ball.direction.y = v`. */
  function SetDirectionY(c: Collide, v: real): (r: Collide)
    requires Coherent(c)
    ensures Coherent(r)
    ensures r.world.ball.direction == c.world.ball.direction.(y := v)
    ensures r.ballDir == (if c.detached then c.ballDir else c.ballDir.(y := v))
    ensures KeepsAllButDirection(c, r)
  {
    SetDirection(c, c.world.ball.direction.(y := v))
  }

  /** What a wall or paddle rule may not touch: positions, sizes, speed,
      both paddles, the clock and the captured position; once the ball has
      been reset, its writes no longer reach the captured direction either. */
  predicate KeepsAllButDirection(c: Collide, r: Collide)
  {
    && r.world.ball.(direction := c.world.ball.direction) == c.world.ball
    && r.world.(ball := c.world.ball) == c.world
    && r.ballPos == c.ballPos
    && r.detached == c.detached
    && (c.detached ==> r.ballDir == c.ballDir)
  }

  /** Right wall: if the captured position's right edge is past the canvas
      width, `direction.x` becomes the negated captured `direction.x`. */
  function RightWall(c: Collide, canvas: Canvas): (r: Collide)
    requires Coherent(c)
    ensures Coherent(r) && KeepsAllButDirection(c, r)
    ensures c.ballPos.x + c.world.ball.width > canvas.width
            ==> r.world.ball.direction == c.world.ball.direction.(x := -c.ballDir.x)
    ensures c.ballPos.x + c.world.ball.width <= canvas.width ==> r == c
  {
    if c.ballPos.x + c.world.ball.width > canvas.width then
      SetDirectionX(c, FlipSignValue(c.ballDir.x))
    else
      c
  }

  /** Left edge: if the captured position is left of 0, the ball is reset
      and points at fresh objects; the captured values stay as they were. */
  function LeftExit(c: Collide): (r: Collide)
    requires Coherent(c)
    ensures Coherent(r)
    ensures r.ballPos == c.ballPos && r.ballDir == c.ballDir
    ensures r.world.(ball := c.world.ball) == c.world
    ensures c.ballPos.x < 0.0 ==> r.detached && r.world.ball == ResetBall(c.world.ball)
    ensures c.ballPos.x >= 0.0 ==> r == c
  {
    if c.ballPos.x < 0.0 then
      c.(world := c.world.(ball := ResetBall(c.world.ball)), detached := true)
    else
      c
  }

  /** Bottom wall: if the captured position's bottom edge is past the canvas
      height, `direction.y` becomes the negated captured `direction.y`. */
  function BottomWall(c: Collide, canvas: Canvas): (r: Collide)
    requires Coherent(c)
    ensures Coherent(r) && KeepsAllButDirection(c, r)
    ensures c.ballPos.y + c.world.ball.height > canvas.height
            ==> r.world.ball.direction == c.world.ball.direction.(y := -c.ballDir.y)
    ensures c.ballPos.y + c.world.ball.height <= canvas.height ==> r == c
  {
    if c.ballPos.y + c.world.ball.height > canvas.height then
      SetDirectionY(c, FlipSignValue(c.ballDir.y))
    else
      c
  }

  /** Top wall: if the captured position is above 0, `direction.y` becomes
      the negated captured `direction.y`. */
  function TopWall(c: Collide): (r: Collide)
    requires Coherent(c)
    ensures Coherent(r) && KeepsAllButDirection(c, r)
    ensures c.ballPos.y < 0.0
            ==> r.world.ball.direction == c.world.ball.direction.(y := -c.ballDir.y)
    ensures c.ballPos.y >= 0.0 ==> r == c
  {
    if c.ballPos.y < 0.0 then
      SetDirectionY(c, FlipSignValue(c.ballDir.y))
    else
      c
  }

  /** Whether a paddle's box and the ball's box at the captured position
      overlap (edges included). Before a reset that is the ball's own box;
      after one it is the box where the ball was on entry. */
  predicate Hits(c: Collide, paddle: Paddle)
    ensures Coherent(c) && !c.detached
            ==> (Hits(c, paddle) <==> Overlap(PaddleBox(paddle), BallBox(c.world.ball.position, c.world.ball)))
  {
    Overlap(PaddleBox(paddle), BallBox(c.ballPos, c.world.ball))
  }

  /** A paddle hit: `direction.y` becomes minus `distanceFromCenter` of the
      ball's current position (so its magnitude is at most 2), then
      `direction.x` becomes the negated captured `direction.x`. */
  function PaddleHit(c: Collide, paddle: Paddle): (r: Collide)
    requires Coherent(c)
    ensures Coherent(r) && KeepsAllButDirection(c, r)
    ensures Hits(c, paddle) ==>
              && r.world.ball.direction
                 == Vec(-c.ballDir.x, -DistanceFromCenter(c.world.ball, paddle))
              && Abs(r.world.ball.direction.y) <= 2.0
    ensures !Hits(c, paddle) ==> r == c
  {
    if Hits(c, paddle) then
      var d := DistanceFromCenter(c.world.ball, paddle);
      var c' := SetDirectionY(c, FlipSignValue(d));
      SetDirectionX(c', FlipSignValue(c'.ballDir.x))
    else
      c
  }

  /** `checkForCollisions`: the four edge rules, then the player paddle,
      then the AI paddle, all reading the state captured on entry. */
  function CheckForCollisions(w: World, canvas: Canvas): (r: World)
    ensures r.player == w.player && r.ai == w.ai
    ensures r.deltaTime == w.deltaTime && r.timeOfLastFrame == w.timeOfLastFrame
    ensures r.ball.speed == w.ball.speed
    ensures r.ball.width == w.ball.width && r.ball.height == w.ball.height
    ensures r.ball.position == (if w.ball.position.x < 0.0 then START_POSITION else w.ball.position)
    ensures Abs(w.ball.direction.x) == 1.0 ==> Abs(r.ball.direction.x) == 1.0
    ensures Abs(w.ball.direction.y) <= 2.0 ==> Abs(r.ball.direction.y) <= 2.0
  {
    var c0 := Capture(w);
    var c1 := RightWall(c0, canvas);
    var c2 := LeftExit(c1);
    var c3 := BottomWall(c2, canvas);
    var c4 := TopWall(c3);
    var c5 := PaddleHit(c4, c4.world.player);
    var c6 := PaddleHit(c5, c5.world.ai);
    c6.world
  }

  /** The outcome of `checkForCollisions` stated directly in terms of which
      rules fire on the entry state, without the heap. */
  function ExpectedBall(w: World, canvas: Canvas): Ball
  {
    var b := w.ball;
    var p := b.position;
    var d := b.direction;
    var right := p.x + b.width > canvas.width;
    var left := p.x < 0.0;
    var bottom := p.y + b.height > canvas.height;
    var top := p.y < 0.0;
    var hitPlayer := Overlap(PaddleBox(w.player), BallBox(p, b));
    var hitAi := Overlap(PaddleBox(w.ai), BallBox(p, b));
    // distanceFromCenter reads the ball as it is after a possible reset
    var live := if left then ResetBall(b) else b;
    // the captured direction.x once the right-wall rule has run
    var x0 := if right then -d.x else d.x;
    var dx :=
      if left then (if hitPlayer || hitAi then -x0 else 1.0)
      else if hitPlayer != hitAi then -x0
      else x0;
    var dy :=
      if hitAi then -DistanceFromCenter(live, w.ai)
      else if hitPlayer then -DistanceFromCenter(live, w.player)
      else if left then (if bottom || top then -d.y else 1.0)
      else if bottom != top then -d.y
      else d.y;
    live.(direction := Vec(dx, dy))
  }

  /** `checkForCollisions` agrees with the direct description. */
  lemma CheckForCollisionsClosedForm(w: World, canvas: Canvas)
    ensures CheckForCollisions(w, canvas) == w.(ball := ExpectedBall(w, canvas))
  {
  }

  /** Before any reset every x-flip acts on the one shared direction: when
      the right wall and the AI paddle both fire (and the player paddle does
      not), `direction.x` ends where it started. */
  lemma DoubleFlipCancels(w: World, canvas: Canvas)
    requires w.ball.position.x >= 0.0
    requires w.ball.position.x + w.ball.width > canvas.width
    requires Overlap(PaddleBox(w.ai), BallBox(w.ball.position, w.ball))
    requires !Overlap(PaddleBox(w.player), BallBox(w.ball.position, w.ball))
    ensures CheckForCollisions(w, canvas).ball.direction.x == w.ball.direction.x
  {
    CheckForCollisionsClosedForm(w, canvas);
  }

  /** Without a reset the bottom and top rules flip the same object, so when
      both fire (a ball taller than the canvas) `direction.y` is unchanged
      unless a paddle is hit. */
  lemma BothYWallsCancel(w: World, canvas: Canvas)
    requires w.ball.position.x >= 0.0
    requires w.ball.position.y + w.ball.height > canvas.height && w.ball.position.y < 0.0
    requires !Overlap(PaddleBox(w.ai), BallBox(w.ball.position, w.ball))
    requires !Overlap(PaddleBox(w.player), BallBox(w.ball.position, w.ball))
    ensures CheckForCollisions(w, canvas).ball.direction.y == w.ball.direction.y
  {
    CheckForCollisionsClosedForm(w, canvas);
  }

  /** After a left-edge exit the ball is back at the start, but the later
      wall tests still read the pre-reset position and direction: a ball
      that left above the top edge is sent off with the negated pre-reset
      `direction.y` rather than the fresh 1. */
  lemma ResetKeepsStaleSnapshot(w: World, canvas: Canvas)
    requires w.ball.position.x < 0.0
    requires !Overlap(PaddleBox(w.ai), BallBox(w.ball.position, w.ball))
    requires !Overlap(PaddleBox(w.player), BallBox(w.ball.position, w.ball))
    ensures CheckForCollisions(w, canvas).ball.position == START_POSITION
    ensures CheckForCollisions(w, canvas).ball.direction.x == 1.0
    ensures CheckForCollisions(w, canvas).ball.direction.y
            == (if w.ball.position.y < 0.0 || w.ball.position.y + w.ball.height > canvas.height
                then -w.ball.direction.y else 1.0)
  {
    CheckForCollisionsClosedForm(w, canvas);
  }

  /** The paddle tests after a reset also use the pre-reset box: a paddle
      that overlaps the ball where it left sends the reset ball off with the
      negated captured `direction.x`, not with the fresh 1. */
  lemma ResetThenPaddleHit(w: World, canvas: Canvas)
    requires w.ball.position.x < 0.0
    requires Overlap(PaddleBox(w.player), BallBox(w.ball.position, w.ball))
    ensures CheckForCollisions(w, canvas).ball.position == START_POSITION
    ensures CheckForCollisions(w, canvas).ball.direction.x
            == (if w.ball.position.x + w.ball.width > canvas.width then w.ball.direction.x
                else -w.ball.direction.x)
  {
    CheckForCollisionsClosedForm(w, canvas);
  }

  /** A concrete instance on an 800 by 600 canvas: the ball leaves left
      above the top edge while moving down, and after the reset it moves up. */
  lemma ResetExample()
    ensures var canvas := Canvas(800.0, 600.0);
            var w := Initial(canvas).(ball := Initial(canvas).ball.(position := Vec(-5.0, -3.0),
                                                                    direction := Vec(-1.0, 0.5)));
            CheckForCollisions(w, canvas).ball.direction == Vec(1.0, -0.5)
  {
    var canvas := Canvas(800.0, 600.0);
    var w := Initial(canvas).(ball := Initial(canvas).ball.(position := Vec(-5.0, -3.0),
                                                            direction := Vec(-1.0, 0.5)));
    CheckForCollisionsClosedForm(w, canvas);
  }
}
