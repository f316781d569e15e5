/** The game object: the two paddles, the balls, the running flag and the tick
    counter, updated in place once per frame by input handling and the simulation
    step, and read by frame generation. */
module Pong {
  import opened GameTypes
  import opened Physics
  import opened Input
  import opened Render

  /** What the platform supplies for one frame: the drained events, the keyboard
      snapshot and the clock reading taken once the frame-pacing wait is over. */
  datatype FrameInput = FrameInput(events: seq<Event>, keys: KeyState, now: u32)

  /** The state of a game as a value: the fields `Game` updates in place. */
  datatype World = World(right: Paddle, left: Paddle, balls: seq<Ball>, running: bool, ticks: u32)

  /** Both paddles lie within the clamp range and their directions are in {-1, 0, 1}. */
  predicate WorldValid(w: World) {
    PaddleInBounds(w.right) && PaddleInBounds(w.left)
    && -1 <= w.right.direction <= 1 && -1 <= w.left.direction <= 1
  }

  /** The world after input handling: nothing moves, the running flag can only be
      cleared, and each paddle's direction comes from its own two keys. */
  function AfterInput(w: World, events: seq<Event>, keys: KeyState): (r: World)
    ensures r.balls == w.balls && r.ticks == w.ticks
    ensures r.right.position == w.right.position && r.left.position == w.left.position
    ensures r.running ==> w.running
    ensures WorldValid(w) ==> WorldValid(r)
  {
    w.(running := w.running && !StopRequested(events, keys),
       right := w.right.(direction := KeyDirection(keys.i, keys.k)),
       left := w.left.(direction := KeyDirection(keys.w, keys.s)))
  }

  /** The world after the simulation step with the clock reading `now`: the ball
      count is kept, the tick counter becomes `now`, the running flag can only be
      cleared and stays set only while no ball is beyond a side threshold, and the
      paddle invariant is kept. */
  function AfterUpdate(w: World, now: u32): (r: World)
    ensures |r.balls| == |w.balls| && r.ticks == now
    ensures r.running ==> w.running
    ensures r.running ==> forall k :: 0 <= k < |r.balls| ==> !PastSideWall(r.balls[k])
    ensures WorldValid(w) ==> WorldValid(r)
  {
    var dt := DeltaTime(Elapsed(now, w.ticks));
    var right := PaddleStep(w.right, dt);
    var left := PaddleStep(w.left, dt);
    var bs := seq(|w.balls|, k requires 0 <= k < |w.balls| => StepBall(w.balls[k], right, left, dt));
    World(right, left, bs, w.running && forall k :: 0 <= k < |bs| ==> !PastSideWall(bs[k]), now)
  }

  /** One frame of the main loop: input handling, then the simulation step. */
  function StepFrame(w: World, f: FrameInput): (r: World)
    ensures |r.balls| == |w.balls| && r.ticks == f.now
    ensures r.running ==> w.running && !StopRequested(f.events, f.keys)
    ensures WorldValid(w) ==> WorldValid(r)
  {
    AfterUpdate(AfterInput(w, f.events, f.keys), f.now)
  }

  /** The world after the first `n` frames, in order. */
  function Play(w: World, frames: seq<FrameInput>, n: nat): (r: World)
    requires n <= |frames|
    ensures |r.balls| == |w.balls|
    ensures r.running ==> w.running
    ensures WorldValid(w) ==> WorldValid(r)
    ensures n == 0 ==> r == w
    ensures n > 0 ==> r.ticks == frames[n - 1].now
  {
    if n == 0 then w
    else StepFrame(Play(w, frames, n - 1), frames[n - 1])
  }

  /** What a world looks like on screen: the frame's draw commands. */
  function View(w: World): (cmds: seq<DrawCommand>)
    ensures |cmds| == 8 + 2 * |w.balls|
  {
    Frame(w.right, w.left, w.balls)
  }

  /** A game that is still running after `m` frames was running after every
      smaller number of them: a stopped game never runs again. */
  lemma {:induction false} PlayRunningPrefix(w: World, frames: seq<FrameInput>, n: nat, m: nat)
    requires n <= m <= |frames|
    requires Play(w, frames, m).running
    ensures Play(w, frames, n).running
  {
    if n < m {
      PlayRunningPrefix(w, frames, n, m - 1);
    }
  }

  class Game {
    var rightPaddle: Paddle
    var leftPaddle: Paddle
    var balls: seq<Ball>
    var isRunning: bool
    var ticksCount: u32

    /** The object invariant: both paddles lie within the clamp range and their
        directions are in {-1, 0, 1}. */
    ghost predicate Valid()
      reads this
    {
      WorldValid(Current())
    }

    /** The fields as a world value. */
    function Current(): World
      reads this
    {
      World(rightPaddle, leftPaddle, balls, isRunning, ticksCount)
    }

    /** The starting world: paddles centred vertically at the two sides, standing
        still, and three balls at the window centre. */
    constructor ()
      ensures Valid() && isRunning && ticksCount == 0
      ensures rightPaddle == Paddle(Vector2(1009.0, 384.0), 0)
      ensures leftPaddle == Paddle(Vector2(15.0, 384.0), 0)
      ensures balls == [Ball(Vector2(512.0, 384.0), Vector2(100.0, 120.0), 0x0000_FFFF),
                        Ball(Vector2(512.0, 384.0), Vector2(-120.0, 92.0), 0x00FF_00FF),
                        Ball(Vector2(512.0, 384.0), Vector2(-70.0, 220.0), 0xFF00_00FF)]
    {
      ticksCount := 0;
      isRunning := true;
      rightPaddle := Paddle(Vector2((WindowWidth - Thickness) as real, (WindowHeight / 2) as real), 0);
      leftPaddle := Paddle(Vector2(Thickness as real, (WindowHeight / 2) as real), 0);
      var centre := Vector2((WindowWidth / 2) as real, (WindowHeight / 2) as real);
      balls := [Ball(centre, Vector2(100.0, 120.0), 0x0000_FFFF)];
      balls := balls + [Ball(centre, Vector2(-120.0, 92.0), 0x00FF_00FF)];
      balls := balls + [Ball(centre, Vector2(-70.0, 220.0), 0xFF00_00FF)];
    }

    /** Input handling: any quit event or a held Escape clears the running flag
        (nothing sets it again), and each paddle's direction is recomputed from its
        own two keys only, with nothing carried over from the previous frame. */
    method HandleInput(events: seq<Event>, keys: KeyState)
      requires Valid()
      modifies this
      ensures Valid()
      ensures isRunning == (old(isRunning) && !StopRequested(events, keys))
      ensures rightPaddle == old(rightPaddle).(direction := KeyDirection(keys.i, keys.k))
      ensures leftPaddle == old(leftPaddle).(direction := KeyDirection(keys.w, keys.s))
      ensures balls == old(balls) && ticksCount == old(ticksCount)
      ensures Current() == AfterInput(old(Current()), events, keys)
    {
      var n := 0;
      while n < |events|
        invariant 0 <= n <= |events|
        invariant isRunning == (old(isRunning) && Quit !in events[..n])
        invariant rightPaddle == old(rightPaddle) && leftPaddle == old(leftPaddle)
        invariant balls == old(balls) && ticksCount == old(ticksCount)
      {
        if events[n] == Quit {
          isRunning := false;
        }
        assert events[..n + 1] == events[..n] + [events[n]];
        n := n + 1;
      }
      assert events[..n] == events;

      if keys.escape {
        isRunning := false;
      }

      rightPaddle := rightPaddle.(direction := 0);
      leftPaddle := leftPaddle.(direction := 0);

      if keys.i {
        rightPaddle := rightPaddle.(direction := rightPaddle.direction + -1);
      }
      if keys.k {
        rightPaddle := rightPaddle.(direction := rightPaddle.direction + 1);
      }

      if keys.w {
        leftPaddle := leftPaddle.(direction := leftPaddle.direction + -1);
      }
      if keys.s {
        leftPaddle := leftPaddle.(direction := leftPaddle.direction + 1);
      }
    }

    /** Moves one paddle by its direction and clamps it into the paddle range; a
        paddle with direction 0 is returned unchanged. */
    method PaddleWallCollision(paddle: Paddle, deltaTime: real) returns (moved: Paddle)
      ensures moved == PaddleStep(paddle, deltaTime)
    {
      moved := paddle;
      if moved.direction != 0 {
        moved := moved.(position := moved.position.(y := moved.position.y + moved.direction as real * PaddleSpeed * deltaTime));
        if moved.position.y < (PaddleHeight / 2 + Thickness) as real {
          moved := moved.(position := moved.position.(y := (PaddleHeight / 2 + Thickness) as real));
        } else if moved.position.y > (WindowHeight - PaddleHeight / 2 - Thickness) as real {
          moved := moved.(position := moved.position.(y := (WindowHeight - PaddleHeight / 2 - Thickness) as real));
        }
      }
    }

    /** The right-paddle check on an integrated ball: reverse the horizontal
        velocity of a ball that is aligned with the paddle, has reached its face
        and is moving right. */
    method RightPaddleCheck(ball: Ball, right: Paddle) returns (checked: Ball)
      ensures checked == RightPaddleBounce(ball, right)
    {
      checked := ball;
      var diff := checked.position.y - right.position.y;
      diff := if diff > 0.0 then diff else -diff;
      if diff < (PaddleHeight / 2) as real {
        if checked.position.x + (Thickness / 2) as real > right.position.x - (Thickness / 2) as real
           && checked.velocity.x > 0.0 {
          checked := checked.(velocity := checked.velocity.(x := checked.velocity.x * -1.0));
        }
      }
    }

    /** The left-paddle check, the mirror image of `RightPaddleCheck`. */
    method LeftPaddleCheck(ball: Ball, left: Paddle) returns (checked: Ball)
      ensures checked == LeftPaddleBounce(ball, left)
    {
      checked := ball;
      var diff := checked.position.y - left.position.y;
      diff := if diff > 0.0 then diff else -diff;
      if diff < (PaddleHeight / 2) as real {
        if checked.position.x - (Thickness / 2) as real < left.position.x + (Thickness / 2) as real
           && checked.velocity.x < 0.0 {
          checked := checked.(velocity := checked.velocity.(x := checked.velocity.x * -1.0));
        }
      }
    }

    /** The top/bottom wall check: reverse the vertical velocity of a ball past a
        threshold that is still moving outward. */
    method TopBottomCheck(ball: Ball) returns (checked: Ball)
      ensures checked == WallBounce(ball)
    {
      checked := ball;
      if checked.position.y < (Thickness + Thickness / 2) as real && checked.velocity.y < 0.0 {
        checked := checked.(velocity := checked.velocity.(y := checked.velocity.y * -1.0));
      } else if checked.position.y > (WindowHeight - (Thickness + Thickness / 2)) as real
                && checked.velocity.y > 0.0 {
        checked := checked.(velocity := checked.velocity.(y := checked.velocity.y * -1.0));
      }
    }

    /** The body of the simulation step for one ball: integrate, check the right
        and then the left paddle, test the side walls, check the top and bottom
        walls.  `exited` reports a ball beyond a side threshold. */
    method UpdateBall(ball: Ball, right: Paddle, left: Paddle, deltaTime: real)
      returns (moved: Ball, exited: bool)
      ensures moved == StepBall(ball, right, left, deltaTime)
      ensures exited == PastSideWall(moved)
    {
      moved := ball.(position := Vector2(ball.position.x + ball.velocity.x * deltaTime,
                                         ball.position.y + ball.velocity.y * deltaTime));
      ghost var integrated := Integrate(ball, deltaTime);
      assert integrated.position == moved.position;
      assert moved == integrated;
      moved := RightPaddleCheck(moved, right);
      moved := LeftPaddleCheck(moved, left);
      ghost var checked := moved;

      exited := false;
      if moved.position.x > (WindowWidth - Thickness / 2) as real {
        exited := true;
      } else if moved.position.x < (Thickness / 2) as real {
        exited := true;
      }

      moved := TopBottomCheck(moved);
      assert moved.position == checked.position;
    }

    /** One simulation step with the clock reading `now`: the frame time is the
        wrapped tick difference in seconds, capped at 0.05; both paddles move and
        are clamped; then every ball, in order, is stepped against the moved
        paddles.  The ball list keeps its length, the running flag is only ever
        cleared, and it is cleared exactly when some stepped ball lies beyond a
        side threshold. */
    method UpdateGame(now: u32)
      requires Valid()
      modifies this
      ensures Valid()
      ensures ticksCount == now
      ensures var dt := DeltaTime(Elapsed(now, old(ticksCount)));
        rightPaddle == PaddleStep(old(rightPaddle), dt)
        && leftPaddle == PaddleStep(old(leftPaddle), dt)
        && |balls| == |old(balls)|
        && forall k :: 0 <= k < |balls| ==> balls[k] == StepBall(old(balls)[k], rightPaddle, leftPaddle, dt)
      ensures isRunning == (old(isRunning) && forall k :: 0 <= k < |balls| ==> !PastSideWall(balls[k]))
      ensures Current() == AfterUpdate(old(Current()), now)
    {
      var deltaTime := Elapsed(now, ticksCount) as real / 1000.0;
      if deltaTime > 0.05 {
        deltaTime := 0.05;
      }
      assert deltaTime == DeltaTime(Elapsed(now, old(ticksCount)));

      ticksCount := now;

      rightPaddle := PaddleWallCollision(rightPaddle, deltaTime);
      leftPaddle := PaddleWallCollision(leftPaddle, deltaTime);
      PaddleStepKeepsBounds(old(rightPaddle), deltaTime);
      PaddleStepKeepsBounds(old(leftPaddle), deltaTime);

      var i := 0;
      while i < |balls|
        invariant 0 <= i <= |balls| == |old(balls)|
        invariant ticksCount == now
        invariant rightPaddle == PaddleStep(old(rightPaddle), deltaTime)
        invariant leftPaddle == PaddleStep(old(leftPaddle), deltaTime)
        invariant forall k :: 0 <= k < i ==> balls[k] == StepBall(old(balls)[k], rightPaddle, leftPaddle, deltaTime)
        invariant forall k :: i <= k < |balls| ==> balls[k] == old(balls)[k]
        invariant isRunning == (old(isRunning) && forall k :: 0 <= k < i ==> !PastSideWall(balls[k]))
      {
        var ball, exited := UpdateBall(balls[i], rightPaddle, leftPaddle, deltaTime);
        if exited {
          isRunning := false;
        }
        balls := balls[i := ball];
        i := i + 1;
      }
      ghost var w, right, left := old(Current()), rightPaddle, leftPaddle;
      assert balls == seq(|w.balls|, k requires 0 <= k < |w.balls| => StepBall(w.balls[k], right, left, deltaTime));
    }

    /** The draw commands of the current world, in the order they are issued: the
        frame that `Frame` describes.  Nothing in the game changes. */
    method GenerateOutput() returns (cmds: seq<DrawCommand>)
      ensures cmds == Frame(rightPaddle, leftPaddle, balls)
    {
      cmds := [SetDrawColor(Background), Clear, SetDrawColor(WallColor)];
      cmds := cmds + [FillRect(Rect(0, 0, WindowWidth, Thickness))];
      cmds := cmds + [FillRect(Rect(0, WindowHeight - Thickness, WindowWidth, Thickness))];
      cmds := cmds + [FillRect(Rect(Truncate(rightPaddle.position.x) - Thickness / 2,
                                    Truncate(rightPaddle.position.y) - PaddleHeight / 2,
                                    Thickness, PaddleHeight))];
      cmds := cmds + [FillRect(Rect(Truncate(leftPaddle.position.x) - Thickness / 2,
                                    Truncate(leftPaddle.position.y) - PaddleHeight / 2,
                                    Thickness, PaddleHeight))];

      var i := 0;
      while i < |balls|
        invariant 0 <= i <= |balls|
        invariant cmds == Backdrop(rightPaddle, leftPaddle) + BallCommands(balls[..i])
      {
        var ball := balls[i];
        var rect := Rect(Truncate(ball.position.x) - Thickness / 2,
                         Truncate(ball.position.y) - Thickness / 2,
                         Thickness, Thickness);
        cmds := cmds + [SetDrawColor(UnpackColor(ball.color)), FillRect(rect)];
        BallCommandsAppend(balls[..i], ball);
        assert balls[..i + 1] == balls[..i] + [ball];
        i := i + 1;
      }
      assert balls[..i] == balls;

      cmds := cmds + [Present];
    }

    /** One pass of the main loop: handle the frame's input, step the world with
        its clock reading and generate the frame, which shows the stepped world. */
    method RunFrame(f: FrameInput) returns (cmds: seq<DrawCommand>)
      requires Valid()
      modifies this
      ensures Valid()
      ensures Current() == StepFrame(old(Current()), f)
      ensures cmds == View(Current())
    {
      HandleInput(f.events, f.keys);
      UpdateGame(f.now);
      cmds := GenerateOutput();
    }

    /** The main loop over a finite run of frame inputs: while the game is running
        and input remains, handle input, step the world and generate a frame, with
        no phase skipped.  Frame `n` is shown only if the game was still running
        after the `n` frames before it, and it shows the world after `n + 1` frames;
        the game ends in the world the shown frames lead to, and the loop ends
        early only because the game stopped. */
    method Run(frames: seq<FrameInput>) returns (shown: seq<seq<DrawCommand>>)
      requires Valid()
      modifies this
      ensures Valid()
      ensures |shown| <= |frames|
      ensures Current() == Play(old(Current()), frames, |shown|)
      ensures forall n :: 0 <= n < |shown| ==> Play(old(Current()), frames, n).running
      ensures forall n :: 0 <= n < |shown| ==> shown[n] == View(Play(old(Current()), frames, n + 1))
      ensures |shown| < |frames| ==> !isRunning
    {
      ghost var start := Current();
      shown := [];
      var n := 0;
      while isRunning && n < |frames|
        invariant Valid() && 0 <= n <= |frames| && |shown| == n
        invariant Current() == Play(start, frames, n)
        invariant forall j :: 0 <= j < n ==> Play(start, frames, j).running
        invariant forall j :: 0 <= j < n ==> shown[j] == View(Play(start, frames, j + 1))
      {
        ghost var reached := Current();
        var cmds := RunFrame(frames[n]);
        assert Current() == Play(start, frames, n + 1);
        forall j | 0 <= j < n + 1
          ensures Play(start, frames, j).running
        {
          if j == n {
            assert Play(start, frames, j) == reached;
          }
        }
        ghost var before := shown;
        shown := shown + [cmds];
        forall j | 0 <= j < n + 1
          ensures shown[j] == View(Play(start, frames, j + 1))
        {
          if j < n {
            assert shown[j] == before[j];
          }
        }
        n := n + 1;
      }
    }
  }

  /** From the starting world, the first ball stepped for 16 ms has only moved:
      it reaches (513.6, 385.92) with its velocity unchanged. */
  lemma FirstBallFirstStep()
    ensures StepBall(Ball(Vector2(512.0, 384.0), Vector2(100.0, 120.0), 0x0000_FFFF),
                     Paddle(Vector2(1009.0, 384.0), 0), Paddle(Vector2(15.0, 384.0), 0), 0.016)
         == Ball(Vector2(513.6, 385.92), Vector2(100.0, 120.0), 0x0000_FFFF)
  {
  }

  /** Escape held with no quit event and no movement key: the game is asked to
      stop and neither paddle moves. */
  lemma EscapeOnly()
    ensures StopRequested([], KeyState(true, false, false, false, false))
    ensures KeyDirection(false, false) == 0
  {
  }
}
