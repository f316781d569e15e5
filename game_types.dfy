/** The data model of the Pong world: plain value records for vectors, balls and
    paddles, and the compile-time constants of the game.  Every constant that the
    update and render code halves is an `int`, so its half is an integer quotient. */
module GameTypes {

  /** A point or a velocity.  Single-precision floats are modelled as reals. */
  datatype Vector2 = Vector2(x: real, y: real)

  /** A ball: centre, velocity in pixels per second, and a packed 32-bit colour. */
  datatype Ball = Ball(position: Vector2, velocity: Vector2, color: bv32)

  /** A paddle: centre and the intended vertical movement.  The type leaves the
      direction an unconstrained integer; its range {-1, 0, 1} is an invariant kept
      by the game (see `Pong.Game.Valid`). */
  datatype Paddle = Paddle(position: Vector2, direction: int)

  /** An unsigned 32-bit integer, as used for the millisecond tick counter. */
  newtype u32 = x: int | 0 <= x < 0x1_0000_0000

  const WindowWidth: int := 1024
  const WindowHeight: int := 768
  const Thickness: int := 15
  const PaddleHeight: int := 100
  const PaddleSpeed: real := 300.0

  /** `Thickness / 2` and `PaddleHeight / 2`, both integer divisions. */
  const HalfThickness: int := Thickness / 2
  const HalfPaddleHeight: int := PaddleHeight / 2

  /** The range a moving paddle's centre is clamped into. */
  const PaddleMinY: int := PaddleHeight / 2 + Thickness
  const PaddleMaxY: int := WindowHeight - PaddleHeight / 2 - Thickness

  /** The horizontal thresholds beyond which a ball ends the game. */
  const RightExitX: int := WindowWidth - Thickness / 2
  const LeftExitX: int := Thickness / 2

  /** The vertical thresholds beyond which a ball bounces off the top or bottom wall. */
  const TopBounceY: int := Thickness + Thickness / 2
  const BottomBounceY: int := WindowHeight - (Thickness + Thickness / 2)

  /** The halves are taken by integer division (7 and 50, not 7.5 and 50), which
      fixes every threshold the game compares against; the paddle range is non-empty. */
  lemma DerivedConstants()
    ensures HalfThickness == 7 && HalfPaddleHeight == 50
    ensures PaddleMinY == 65 && PaddleMaxY == 703 && PaddleMinY <= PaddleMaxY
    ensures RightExitX == 1017 && LeftExitX == 7
    ensures TopBounceY == 22 && BottomBounceY == 746
  {
  }
}
