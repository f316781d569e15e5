# Pong world update, modelled in Dafny

This project models the core of a small Pong game: two paddles that move
vertically, several balls that bounce in a 1024 × 768 arena, and the three
phases of each frame.

- **Input** maps the drained events and the keyboard snapshot to the running
  flag and the two paddle directions.
- **Update** advances the world by a capped frame time. It moves and clamps the
  paddles. Then, for each ball in turn, it integrates the ball, checks the right
  paddle and then the left paddle, tests the side walls (which end the game),
  and bounces the ball off the top or bottom wall.
- **Render** lists the draw commands of the frame.

The model has five modules:

- `GameTypes` (game_types.dfy) holds the value records `Vector2`, `Ball` and
  `Paddle`, the 32-bit type `u32`, and the game's constants. Every halved
  constant is an integer quotient: `Thickness / 2` is 7 and `PaddleHeight / 2`
  is 50. So a ball exits beyond x = 1017 or below x = 7, it bounces above
  y = 22 or below y = 746, and a paddle's centre is clamped into [65, 703].
- `Physics` (physics.dfy) states each rule of one step as a function on values.
  These are the frame time, the paddle step with its clamp, integration, the
  two paddle bounces, the side-wall test and the top/bottom bounce. The lemmas
  here are the properties of those rules.
- `Input` (input.dfy) maps two held keys to a direction in {-1, 0, 1}.
- `Render` (render.dfy) covers float-to-int truncation, rectangles, colour
  unpacking and the command list of a frame.
- `Pong` (pong.dfy) holds the class `Game`. Its fields are the two paddles, the
  ball list, the running flag and the tick counter. Its methods update these
  fields in place, as the game does. The same state as a value is the datatype
  `World`, and `Game.Current()` reads it off the fields. One frame on a `World`
  is a pure function: `AfterInput`, then `AfterUpdate`, together `StepFrame`.
  `Play(w, frames, n)` is the world after the first n frames. Each method is
  proved against one of these functions or against a `Physics`/`Render`
  function. `HandleInput` gives `AfterInput` and `UpdateGame` gives
  `AfterUpdate`. `Run` ends in `Play` of the frames it consumed and shows `View`
  of each intermediate world. The invariant `Valid()` says that both paddles lie
  in the clamp range and that both directions are in {-1, 0, 1}. The type of a
  direction does not constrain it; `Valid()` is where that range lives.

Positions, velocities and the frame time are reals. A ball's colour is a
`bv32`, and a colour channel is a `bv8`. The tick counter is an unsigned 32-bit
value, and the elapsed time is its difference modulo 2^32.

The colour unpacking is modelled as the renderer writes it. Each channel is
masked and shifted right by 23, 15 and 7 bits for red, green and blue, and by 0
bits for alpha. The byte positions are 24, 16 and 8, so each shift is one bit
short. After the cut to 8 bits, red, green and blue are bytes 3, 2 and 1 shifted
left by one. Each is twice its byte modulo 256, so it is always even, and the
top bit of each byte is lost. Alpha is byte 0 unchanged. The lemmas
`UnpackColorShifts`, `UnpackColorChannels`, `UnpackColorIgnoresTopBits` and
`StartingColors` state this. For example, the starting blue ball 0x0000FFFF is
drawn as (0, 0, 254, 255).

`Thickness / 2` is 7 by integer division, and every threshold built from it
uses 7.

## Model

| member | source | states |
|---|---|---|
| `GameTypes.DerivedConstants` | Chapter1-Pong/Game.hpp:46-50 | Integer halving gives 7 and 50. The exit thresholds are 1017 and 7, the bounce thresholds 22 and 746, and the paddle range [65, 703] is non-empty. |
| `Physics.Elapsed` | Chapter1-Pong/Game.cpp:116 | The elapsed milliseconds are below 2^32. They are now − last when the counter did not wrap, and now + 2^32 − last when it did. |
| `Physics.DeltaTime` | Chapter1-Pong/Game.cpp:116-120 | The frame time lies in [0, 0.05]. Up to 50 ms it is exactly the elapsed milliseconds over 1000; beyond that it is 0.05. |
| `Physics.DeltaTimeAfterWait` | Chapter1-Pong/Game.cpp:114-120 | After the wait has let at least 16 ms pass, the frame time lies in [0.016, 0.05]. |
| `Physics.Abs` | Chapter1-Pong/Game.cpp:134-135 | The distance is non-negative and equals the difference or its negation. |
| `Physics.Clamp` | Chapter1-Pong/Game.cpp:259-266 | The result lies in [lo, hi]. A value inside is kept; one below becomes lo and one above becomes hi. |
| `Physics.ClampIsNearest` | Chapter1-Pong/Game.cpp:259-266 | The clamped value is the point of [lo, hi] nearest to the moved position. |
| `Physics.PaddleStep` | Chapter1-Pong/Game.cpp:253-267 | A paddle with direction 0 is unchanged. A moving paddle ends in [65, 703] at the clamp of y + direction·speed·dt. Its x and its direction never change. |
| `Physics.PaddleStepKeepsBounds` | Chapter1-Pong/Game.cpp:253-267 | A paddle that starts in the range stays in it, for any direction and frame time. |
| `Physics.PaddleStepUnclamped` | Chapter1-Pong/Game.cpp:257 | When the move stays inside the range, the paddle moves by exactly direction·speed·dt. |
| `Physics.Integrate` | Chapter1-Pong/Game.cpp:130-131 | The ball moves by velocity·dt on each axis. Its velocity and colour are kept. |
| `Physics.FlipX` | Chapter1-Pong/Game.cpp:141 | Only the horizontal velocity changes: it is negated. |
| `Physics.FlipY` | Chapter1-Pong/Game.cpp:170 | Only the vertical velocity changes: it is negated. |
| `Physics.RightPaddleBounce` | Chapter1-Pong/Game.cpp:133-143 | Only the x velocity can change, and only by a sign flip. It flips exactly when the ball is within 50 of the paddle vertically, x + 7 > paddle x − 7, and the ball moves right. A ball already moving left is never touched; a flipped ball moves left. |
| `Physics.LeftPaddleBounce` | Chapter1-Pong/Game.cpp:145-155 | The mirror image: a flip exactly when the ball is aligned, x − 7 < paddle x + 7, and it moves left. A ball moving right is never touched; a flipped ball moves right. |
| `Physics.WallBounce` | Chapter1-Pong/Game.cpp:167-175 | Only the y velocity can change, by a sign flip. It flips exactly when the ball is above 22 moving up or below 746 moving down. Afterwards a ball above 22 has y velocity ≥ 0, and one below 746 has y velocity ≤ 0. |
| `Physics.HitsRightPaddle` | Chapter1-Pong/Game.cpp:134-139 | Defines the right-paddle hit: within 50 of the paddle vertically, x + 7 > paddle x − 7, and moving right. |
| `Physics.HitsLeftPaddle` | Chapter1-Pong/Game.cpp:146-151 | Defines the left-paddle hit: within 50 of the paddle vertically, x − 7 < paddle x + 7, and moving left. |
| `Physics.PastSideWall` | Chapter1-Pong/Game.cpp:158-165 | Defines the exit test: the ball's x is beyond 1017 or below 7. |
| `Physics.StepBall` | Chapter1-Pong/Game.cpp:130-175 | A ball step keeps the colour and ends at the integrated position: the bounces never move the ball. |
| `Physics.StepBallConservesSpeed` | Chapter1-Pong/Game.cpp:130-175 | A ball step keeps the magnitude of both velocity components; the bounces only reverse signs. |
| `Physics.StepBallInOpenField` | Chapter1-Pong/Game.cpp:130-175 | A ball that hits no paddle and stays between the bounce thresholds is only integrated. |
| `Input.StopRequested` | Chapter1-Pong/Game.cpp:73-88 | Defines a stop request: a quit event among the drained events, or Escape held. |
| `Input.KeyDirection` | Chapter1-Pong/Game.cpp:90-109 | The direction is in {-1, 0, 1}. It is 1 exactly when only the down key is held, −1 exactly when only the up key is held, and 0 when both or neither are held. |
| `Render.Truncate` | Chapter1-Pong/Game.cpp:211-212 | The float-to-int cast rounds toward zero: within 1 of x and never past it. The result is non-negative exactly when x > −1. |
| `Render.UnpackColor` | Chapter1-Pong/Game.cpp:240-243 | Each channel is the masked and shifted value cut to `uint8_t` (`Low8` keeps the low 8 bits). The alpha channel is the low byte of the packed colour. |
| `Render.MaskShiftIsByteShift` | Chapter1-Pong/Game.cpp:240-242 | Masking a colour byte and shifting it right by 23, 15 or 7 leaves that byte shifted left by one in the low 8 bits. |
| `Render.UnpackColorShifts` | Chapter1-Pong/Game.cpp:240-243 | Red, green and blue are bytes 3, 2 and 1 shifted left by one bit inside 8 bits; alpha is byte 0. |
| `Render.UnpackColorChannels` | Chapter1-Pong/Game.cpp:240-243 | Red, green and blue equal (2·byte) mod 256 of bytes 3, 2 and 1, so they are even. Alpha equals byte 0. |
| `Render.UnpackColorIgnoresTopBits` | Chapter1-Pong/Game.cpp:240-242 | Flipping the top bit of bytes 3, 2 and 1 does not change the unpacked colour. |
| `Render.StartingColors` | Chapter1-Pong/Game.cpp:240-243 | The three starting colours unpack with 254, not 255, in their full channel. |
| `Render.PaddleRect` | Chapter1-Pong/Game.cpp:209-226 | A paddle's rectangle is 15 × 100. The truncated centre lies inside it, 7 from the left edge and 50 from the top. |
| `Render.BallRect` | Chapter1-Pong/Game.cpp:232-238 | A ball's square is 15 × 15. The truncated centre lies inside it, 7 from the left edge and 7 from the top. |
| `Render.Backdrop` | Chapter1-Pong/Game.cpp:181-226 | Seven commands: set the background, clear, set the wall colour, then four fills (two walls, two paddles) in that colour. |
| `Render.PaddleRectBetweenWalls` | Chapter1-Pong/Game.cpp:189-226 | A paddle in the clamp range is drawn entirely between the top and bottom walls. |
| `Render.BallCommands` | Chapter1-Pong/Game.cpp:230-247 | Each ball adds two commands, and every one of them is a colour or a fill. |
| `Render.Frame` | Chapter1-Pong/Game.cpp:179-251 | A frame has 8 + 2·(ball count) commands. It starts by setting the background and clearing. It clears exactly once, at position 1, and presents exactly once, last. |
| `Render.BallCommandsAppend` | Chapter1-Pong/Game.cpp:230-247 | Appending a ball to the list appends its colour command and its square. |
| `Render.BallCommandsAt` | Chapter1-Pong/Game.cpp:230-247 | Ball k's commands are at positions 2k and 2k+1: its unpacked colour, then its square. |
| `Render.FrameDrawsBall` | Chapter1-Pong/Game.cpp:228-247 | In a frame, ball k is drawn by commands 7+2k and 8+2k, in its own unpacked colour, after the walls and paddles. |
| `Pong.Game.constructor` | Chapter1-Pong/Game.cpp:41-49 | The game starts running with the tick counter at 0. The paddles stand still at (1009, 384) and (15, 384). Three balls start at (512, 384) with the starting velocities and colours. The invariant holds. |
| `Pong.Game.HandleInput` | Chapter1-Pong/Game.cpp:69-110 | The running flag is cleared by a quit event or by Escape, and is never set. The right direction comes from I/K only, and the left from W/S only, with nothing kept from before. Positions, balls and ticks are unchanged. The new state is `AfterInput` of the old one. |
| `Pong.Game.PaddleWallCollision` | Chapter1-Pong/Game.cpp:253-267 | The paddle it returns is `PaddleStep` of the given paddle. |
| `Pong.Game.RightPaddleCheck` | Chapter1-Pong/Game.cpp:133-143 | The ball it returns is `RightPaddleBounce` of the given ball. |
| `Pong.Game.LeftPaddleCheck` | Chapter1-Pong/Game.cpp:145-155 | The ball it returns is `LeftPaddleBounce` of the given ball. |
| `Pong.Game.TopBottomCheck` | Chapter1-Pong/Game.cpp:167-175 | The ball it returns is `WallBounce` of the given ball. |
| `Pong.Game.UpdateBall` | Chapter1-Pong/Game.cpp:130-175 | The ball it returns is `StepBall` of the given ball. The exit flag is set exactly when the ball lies beyond x = 1017 or below x = 7. |
| `Pong.Game.UpdateGame` | Chapter1-Pong/Game.cpp:112-177 | The tick counter takes the clock reading, and dt is the capped wrapped difference. Both paddles take `PaddleStep`, and the invariant is kept. Every ball, in order, takes `StepBall` against the moved paddles, and the list length is kept. The running flag is cleared exactly when a stepped ball is past a side wall, and is never set. The new state is `AfterUpdate` of the old one. |
| `Pong.Game.GenerateOutput` | Chapter1-Pong/Game.cpp:179-251 | The commands issued are exactly `Frame` of the current world, and nothing changes. |
| `Pong.Game.RunFrame` | Chapter1-Pong/Game.cpp:63-65 | One pass runs input, update and render. The new state is `StepFrame` of the old one with this frame's input, and the commands are `View` of the new state. |
| `Pong.Game.Run` | Chapter1-Pong/Game.cpp:59-67 | The game ends in `Play` of the start over the frames consumed, one per shown frame. Frame n is shown only if the game was running after n frames, and it shows `View` of the world after n + 1 frames. Fewer frames are shown than given only when the game stopped. The invariant is kept. |
| `Pong.AfterInput` | Chapter1-Pong/Game.cpp:69-110 | Input handling moves nothing and keeps balls and ticks. The running flag is never set, and the invariant is kept. |
| `Pong.AfterUpdate` | Chapter1-Pong/Game.cpp:112-177 | The simulation step keeps the ball count and sets the ticks to the clock reading. The running flag is never set, and it stays set only if no ball is past a side wall. The invariant is kept. |
| `Pong.StepFrame` | Chapter1-Pong/Game.cpp:61-65 | A frame keeps the ball count and sets the ticks to the frame's clock reading. The game still runs afterwards only if it ran before and the frame asked for no stop. The invariant is kept. |
| `Pong.Play` | Chapter1-Pong/Game.cpp:59-67 | After n frames, the ball count and the invariant are kept, and the game runs only if it ran at the start. Zero frames leave the world as it is; otherwise the ticks are the last frame's clock reading. |
| `Pong.View` | Chapter1-Pong/Game.cpp:179-251 | A world is shown as its `Frame`, with 8 + 2·(ball count) commands. |
| `Pong.PlayRunningPrefix` | Chapter1-Pong/Game.cpp:61 | A game that runs after m frames also ran after every n ≤ m frames: once stopped, it never runs again. |
| `Pong.FirstBallFirstStep` | Chapter1-Pong/Game.cpp:130-175 | From the start, the first ball stepped for 0.016 s reaches (513.6, 385.92) with its velocity unchanged. |
| `Pong.EscapeOnly` | Chapter1-Pong/Game.cpp:69-110 | Escape alone asks to stop, and no movement key gives direction 0. |

## Left out

- Platform setup and teardown are not modelled. These are SDL initialisation, window and renderer creation, their failure path (a `runtime_error` carrying the platform message) and the destructor (Chapter1-Pong/Game.cpp:13-39, 52-57). They are foreign calls and resource lifetime. The constructor models only the starting world.
- Event polling and the keyboard query become parameters. They are the drained event list (`Event`: quit or other) and a `KeyState` record of the five keys read.
- The busy-wait on the tick counter is not modelled, and neither is its `SDL_TICKS_PASSED` comparison (Chapter1-Pong/Game.cpp:114). `UpdateGame` takes the clock reading after the wait as its parameter `now`. The wait's effect, at least 16 ms elapsed, is the hypothesis of `DeltaTimeAfterWait`.
- Pong.Game.UpdateGame: the two clock reads (Chapter1-Pong/Game.cpp:116, 122) are taken as one reading. A tick passing between them is not modelled.
- IEEE single-precision rounding is not modelled. Positions, velocities and the frame time are reals. This includes the conversion of the elapsed count to float.
- Render.Truncate: the undefined behaviour of casting a float outside the `int` range is not modelled. The cast is truncation toward zero for every real.
- The SDL draw calls are not made. `GenerateOutput` returns their arguments as a command list.
- Pong.Game.Run: the real loop is unbounded and reads its input from the platform. The model runs over a finite list of frame inputs and stops when the list is exhausted. The frames it produces are collected, not presented.
- main.cpp is not part of this model. It only catches and prints the startup exception.
