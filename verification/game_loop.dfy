/**
 One call of `loop` (compute the capped frame step, move, collide) and the
 stream of callbacks the browser delivers: animation frames and pointer
 moves, in the order they arrive.
 */
module GameLoop {
  import opened Numeric
  import opened Entities
  import opened Motion
  import opened Collisions

  /** `loop(ms)`: `ms` is the animation-frame timestamp in milliseconds. */
  function Loop(w: World, canvas: Canvas, ms: real): (r: World)
    ensures r.timeOfLastFrame == ms / 1000.0
    ensures r.deltaTime <= MAX_STEP
    ensures r.deltaTime == FrameDelta(ms / 1000.0, w.timeOfLastFrame)
    ensures r.player == w.player
  {
    var currentTime := ms / 1000.0;
    var w1 := w.(deltaTime := FrameDelta(currentTime, w.timeOfLastFrame), timeOfLastFrame := currentTime);
    CheckForCollisions(UpdatePositions(w1), canvas)
  }

  /** Unless the moved ball has left the canvas on the left, the AI paddle
      ends a frame centred on the ball's top edge. */
  lemma LoopAiTracksBall(w: World, canvas: Canvas, ms: real)
    requires w.ball.position.x + w.ball.speed * w.ball.direction.x * FrameDelta(ms / 1000.0, w.timeOfLastFrame) >= 0.0
    ensures PaddleCentre(Loop(w, canvas, ms).ai) == Loop(w, canvas, ms).ball.position.y
  {
    var w1 := w.(deltaTime := FrameDelta(ms / 1000.0, w.timeOfLastFrame), timeOfLastFrame := ms / 1000.0);
    var moved := UpdatePositions(w1);
    assert moved.ball.position.x >= 0.0;
    assert Loop(w, canvas, ms) == CheckForCollisions(moved, canvas);
  }

  datatype Event = Frame(ms: real) | MouseMove(offsetX: real, offsetY: real)

  function Dispatch(w: World, canvas: Canvas, e: Event): World
  {
    match e
    case Frame(ms) => Loop(w, canvas, ms)
    case MouseMove(x, y) => HandleMouseMove(w, x, y)
  }

  /** The world after a sequence of callbacks. */
  function Run(w: World, canvas: Canvas, events: seq<Event>): (r: World)
    ensures Playable(w, canvas) ==> Playable(r, canvas)
    decreases |events|
  {
    if |events| == 0 then w else Run(Dispatch(w, canvas, events[0]), canvas, events[1..])
  }

  /** What every frame keeps: sizes, speed, the paddles' columns, a
      horizontal direction of magnitude 1, a vertical direction of magnitude
      at most 2 and a frame step of at most `MAX_STEP`. */
  predicate Playable(w: World, canvas: Canvas)
  {
    && w.player.height == PADDLE_HEIGHT && w.player.width == PADDLE_WIDTH
    && w.ai.height == PADDLE_HEIGHT && w.ai.width == PADDLE_WIDTH
    && w.player.position.x == PADDLE_INSET
    && w.ai.position.x == canvas.width - PADDLE_INSET
    && w.ball.width == BALL_SIZE && w.ball.height == BALL_SIZE
    && w.ball.speed == BALL_SPEED
    && Abs(w.ball.direction.x) == 1.0
    && Abs(w.ball.direction.y) <= 2.0
    && w.deltaTime <= MAX_STEP
  }

  lemma InitialPlayable(canvas: Canvas)
    ensures Playable(Initial(canvas), canvas)
  {
  }

  /** `resetBall` puts a ball that has kept its size and speed back into
      exactly its state before the first frame. */
  lemma ResetRestoresInitialBall(w: World, canvas: Canvas)
    requires Playable(w, canvas)
    ensures ResetBall(w.ball) == Initial(canvas).ball
  {
  }

  datatype Option<T> = None | Some(value: T)

  /** The offset of the latest pointer move in a sequence of callbacks. */
  function LastPointer(events: seq<Event>): Option<real>
    decreases |events|
  {
    if |events| == 0 then None
    else if events[|events| - 1].MouseMove? then Some(events[|events| - 1].offsetY)
    else LastPointer(events[..|events| - 1])
  }

  /** After any sequence of callbacks the player paddle is centred on the
      latest pointer position, or untouched if the pointer never moved. */
  lemma {:induction false} RunFollowsLastPointer(w: World, canvas: Canvas, events: seq<Event>)
    ensures LastPointer(events).Some? ==> PaddleCentre(Run(w, canvas, events).player) == LastPointer(events).value
    ensures LastPointer(events).None? ==> Run(w, canvas, events).player == w.player
    decreases |events|
  {
    if |events| > 0 {
      var n := |events| - 1;
      RunSplit(w, canvas, events[..n], events[n]);
      assert events == events[..n] + [events[n]];
      RunFollowsLastPointer(w, canvas, events[..n]);
    }
  }

  /** Running a sequence and then one more callback is running the longer
      sequence. */
  lemma {:induction false} RunSplit(w: World, canvas: Canvas, events: seq<Event>, e: Event)
    ensures Run(w, canvas, events + [e]) == Dispatch(Run(w, canvas, events), canvas, e)
    decreases |events|
  {
    if |events| == 0 {
      assert [e][1..] == [];
    } else {
      assert (events + [e])[1..] == events[1..] + [e];
      RunSplit(Dispatch(w, canvas, events[0]), canvas, events[1..], e);
    }
  }
}
