/** The rules of one simulation step, as functions of values: the frame time, the
    paddle movement with its hard clamp, and the per-ball integration, paddle
    bounces, side-wall exit test and top/bottom bounce.  `Pong.Game.UpdateGame`
    applies them in place and is proved against them. */
module Physics {
  import opened GameTypes

  /** Milliseconds between two readings of the 32-bit tick counter; the unsigned
      subtraction wraps modulo 2^32. */
  function Elapsed(now: u32, last: u32): (e: nat)
    ensures e < 0x1_0000_0000
    ensures last <= now ==> e == (now - last) as int
    ensures now < last ==> e == now as int + 0x1_0000_0000 - last as int
  {
    (now as int - last as int) % 0x1_0000_0000
  }

  /** The frame time in seconds: elapsed milliseconds over 1000, capped at 0.05. */
  function DeltaTime(elapsedMs: nat): (dt: real)
    ensures 0.0 <= dt <= 0.05
    ensures elapsedMs <= 50 ==> dt * 1000.0 == elapsedMs as real
    ensures elapsedMs > 50 ==> dt == 0.05
  {
    var seconds := elapsedMs as real / 1000.0;
    if seconds > 0.05 then 0.05 else seconds
  }

  /** Once the frame-pacing wait has let at least 16 ms pass, the frame time lies
      in [0.016, 0.05]. */
  lemma DeltaTimeAfterWait(elapsedMs: nat)
    requires 16 <= elapsedMs
    ensures 0.016 <= DeltaTime(elapsedMs) <= 0.05
  {
  }

  function Abs(r: real): (a: real)
    ensures 0.0 <= a && (a == r || a == -r)
  {
    if r > 0.0 then r else -r
  }

  /** `v` moved into [lo, hi]: below lo it becomes lo, above hi it becomes hi. */
  function Clamp(v: real, lo: real, hi: real): (r: real)
    requires lo <= hi
    ensures lo <= r <= hi
    ensures lo <= v <= hi ==> r == v
    ensures v < lo ==> r == lo
    ensures hi < v ==> r == hi
  {
    if v < lo then lo else if v > hi then hi else v
  }

  /** The clamp picks the point of [lo, hi] nearest to `v`. */
  lemma ClampIsNearest(v: real, lo: real, hi: real, z: real)
    requires lo <= z <= hi
    ensures Abs(Clamp(v, lo, hi) - v) <= Abs(z - v)
  {
  }

  /** A paddle centre that lies within the clamp range. */
  predicate PaddleInBounds(p: Paddle) {
    PaddleMinY as real <= p.position.y <= PaddleMaxY as real
  }

  /** One paddle step: a paddle with direction 0 stays as it is; otherwise its
      centre moves by direction * speed * dt and is clamped into the paddle range. */
  function PaddleStep(p: Paddle, dt: real): (r: Paddle)
    ensures p.direction == 0 ==> r == p
    ensures p.direction != 0 ==> PaddleInBounds(r)
    ensures r.position.x == p.position.x && r.direction == p.direction
    ensures p.direction != 0 ==>
      r.position.y == Clamp(p.position.y + p.direction as real * PaddleSpeed * dt,
                            PaddleMinY as real, PaddleMaxY as real)
  {
    if p.direction == 0 then p
    else
      var target := p.position.y + p.direction as real * PaddleSpeed * dt;
      p.(position := p.position.(y := Clamp(target, PaddleMinY as real, PaddleMaxY as real)))
  }

  /** A paddle that starts within the range stays within it, whatever its direction
      and the frame time. */
  lemma PaddleStepKeepsBounds(p: Paddle, dt: real)
    requires PaddleInBounds(p)
    ensures PaddleInBounds(PaddleStep(p, dt))
  {
  }

  /** A paddle whose move does not reach the edge of the range is moved exactly
      by direction * speed * dt: the clamp only acts at the edges. */
  lemma PaddleStepUnclamped(p: Paddle, dt: real)
    requires p.direction != 0
    requires PaddleMinY as real <= p.position.y + p.direction as real * PaddleSpeed * dt <= PaddleMaxY as real
    ensures PaddleStep(p, dt).position.y - p.position.y == p.direction as real * PaddleSpeed * dt
  {
  }

  /** Moves the ball by velocity * dt on each axis. */
  function Integrate(b: Ball, dt: real): (r: Ball)
    ensures r.velocity == b.velocity && r.color == b.color
    ensures r.position.x - b.position.x == b.velocity.x * dt
    ensures r.position.y - b.position.y == b.velocity.y * dt
  {
    b.(position := Vector2(b.position.x + b.velocity.x * dt, b.position.y + b.velocity.y * dt))
  }

  /** The ball is within half a paddle height of the paddle's centre, vertically. */
  predicate VerticallyAligned(b: Ball, p: Paddle) {
    Abs(b.position.y - p.position.y) < HalfPaddleHeight as real
  }

  /** The right-paddle hit: aligned, the ball's right edge past the paddle's left
      face, and the ball moving right. */
  predicate HitsRightPaddle(b: Ball, p: Paddle) {
    VerticallyAligned(b, p)
    && b.position.x + HalfThickness as real > p.position.x - HalfThickness as real
    && b.velocity.x > 0.0
  }

  /** The left-paddle hit: aligned, the ball's left edge past the paddle's right
      face, and the ball moving left. */
  predicate HitsLeftPaddle(b: Ball, p: Paddle) {
    VerticallyAligned(b, p)
    && b.position.x - HalfThickness as real < p.position.x + HalfThickness as real
    && b.velocity.x < 0.0
  }

  /** Reverses the horizontal velocity. */
  function FlipX(b: Ball): (r: Ball)
    ensures r.position == b.position && r.color == b.color
    ensures r.velocity.y == b.velocity.y && r.velocity.x == -b.velocity.x
  {
    b.(velocity := b.velocity.(x := b.velocity.x * -1.0))
  }

  /** Reverses the vertical velocity. */
  function FlipY(b: Ball): (r: Ball)
    ensures r.position == b.position && r.color == b.color
    ensures r.velocity.x == b.velocity.x && r.velocity.y == -b.velocity.y
  {
    b.(velocity := b.velocity.(y := b.velocity.y * -1.0))
  }

  /** The right-paddle check: only the horizontal velocity can change, and it is
      reversed exactly when the ball hits the paddle; a ball already moving left is
      never touched, and a flipped ball moves left afterwards. */
  function RightPaddleBounce(b: Ball, p: Paddle): (r: Ball)
    ensures r.position == b.position && r.color == b.color && r.velocity.y == b.velocity.y
    ensures r.velocity.x == b.velocity.x || r.velocity.x == -b.velocity.x
    ensures r != b <==> HitsRightPaddle(b, p)
    ensures b.velocity.x <= 0.0 ==> r == b
    ensures r != b ==> r.velocity.x < 0.0
  {
    if HitsRightPaddle(b, p) then FlipX(b) else b
  }

  /** The left-paddle check, the mirror image of `RightPaddleBounce`. */
  function LeftPaddleBounce(b: Ball, p: Paddle): (r: Ball)
    ensures r.position == b.position && r.color == b.color && r.velocity.y == b.velocity.y
    ensures r.velocity.x == b.velocity.x || r.velocity.x == -b.velocity.x
    ensures r != b <==> HitsLeftPaddle(b, p)
    ensures b.velocity.x >= 0.0 ==> r == b
    ensures r != b ==> r.velocity.x > 0.0
  {
    if HitsLeftPaddle(b, p) then FlipX(b) else b
  }

  /** The ball's centre is beyond the right or the left exit threshold. */
  predicate PastSideWall(b: Ball) {
    b.position.x > RightExitX as real || b.position.x < LeftExitX as real
  }

  /** The top/bottom check: the vertical velocity is reversed only for a ball past
      a threshold and still moving outward; afterwards a ball above the top
      threshold moves down (or not at all vertically) and one below the bottom
      threshold moves up (or not at all). Between the thresholds nothing changes. */
  function WallBounce(b: Ball): (r: Ball)
    ensures r.position == b.position && r.color == b.color && r.velocity.x == b.velocity.x
    ensures r.velocity.y == b.velocity.y || r.velocity.y == -b.velocity.y
    ensures r != b <==>
      (b.position.y < TopBounceY as real && b.velocity.y < 0.0)
      || (b.position.y > BottomBounceY as real && b.velocity.y > 0.0)
    ensures b.position.y < TopBounceY as real ==> r.velocity.y >= 0.0
    ensures b.position.y > BottomBounceY as real ==> r.velocity.y <= 0.0
  {
    if b.position.y < TopBounceY as real && b.velocity.y < 0.0 then FlipY(b)
    else if b.position.y > BottomBounceY as real && b.velocity.y > 0.0 then FlipY(b)
    else b
  }

  /** One ball's step, in the game's order: integrate, right paddle, left paddle,
      top/bottom wall.  The side-wall test reads the position, which the bounces
      leave alone. */
  function StepBall(b: Ball, right: Paddle, left: Paddle, dt: real): (r: Ball)
    ensures r.color == b.color
    ensures r.position == Integrate(b, dt).position
  {
    WallBounce(LeftPaddleBounce(RightPaddleBounce(Integrate(b, dt), right), left))
  }

  /** A step changes neither speed component's magnitude: bounces only reverse
      signs. */
  lemma StepBallConservesSpeed(b: Ball, right: Paddle, left: Paddle, dt: real)
    ensures var r := StepBall(b, right, left, dt);
      Abs(r.velocity.x) == Abs(b.velocity.x)
      && Abs(r.velocity.y) == Abs(b.velocity.y)
  {
    var i := Integrate(b, dt);
    var r1 := RightPaddleBounce(i, right);
    var r2 := LeftPaddleBounce(r1, left);
    assert Abs(r2.velocity.x) == Abs(b.velocity.x);
  }

  /** A ball that, once integrated, hits neither paddle and lies between the top
      and bottom bounce thresholds is only integrated. */
  lemma StepBallInOpenField(b: Ball, right: Paddle, left: Paddle, dt: real)
    requires var i := Integrate(b, dt);
      !HitsRightPaddle(i, right) && !HitsLeftPaddle(i, left)
      && TopBounceY as real <= i.position.y <= BottomBounceY as real
    ensures StepBall(b, right, left, dt) == Integrate(b, dt)
  {
  }
}
