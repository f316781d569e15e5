/** The render side: the draw commands one frame issues, as a list, and the
    arithmetic that produces their arguments (float-to-int truncation, rectangle
    placement and unpacking of a ball's packed colour). */
module Render {
  import opened GameTypes
  import opened Physics

  /** An RGBA colour as four 8-bit channels. */
  datatype Rgba = Rgba(red: bv8, green: bv8, blue: bv8, alpha: bv8)

  /** A filled rectangle: top-left corner, width and height in pixels, y pointing down. */
  datatype Rect = Rect(x: int, y: int, w: int, h: int)

  /** The draw-sink primitives the renderer uses. */
  datatype DrawCommand = SetDrawColor(color: Rgba) | Clear | FillRect(rect: Rect) | Present

  const Background: Rgba := Rgba(15, 15, 15, 255)
  const WallColor: Rgba := Rgba(0, 225, 225, 255)

  const TopWall: Rect := Rect(0, 0, WindowWidth, Thickness)
  const BottomWall: Rect := Rect(0, WindowHeight - Thickness, WindowWidth, Thickness)

  /** Conversion of a float to an int, which truncates toward zero. */
  function Truncate(x: real): (n: int)
    ensures 0.0 <= x ==> n as real <= x < n as real + 1.0
    ensures x < 0.0 ==> n as real - 1.0 < x <= n as real
    ensures 0 <= n <==> 0.0 < x + 1.0
  {
    if x >= 0.0 then x.Floor else -((-x).Floor)
  }

  /** Conversion of a 32-bit value to an 8-bit one, which keeps the low 8 bits. */
  function Low8(x: bv32): bv8 {
    (x & 0xFF) as bv8
  }

  /** The channel unpacking of a ball's packed colour, as the renderer writes it:
      each colour byte is masked and then shifted right by 23, 15, 7 and 0 bits,
      one bit less than the byte positions 24, 16, 8, and the result is cut to 8 bits. */
  function UnpackColor(c: bv32): (rgba: Rgba)
    ensures rgba.alpha as bv32 == c & 0xFF
  {
    Rgba(Low8((c & 0xFF00_0000) >> 23),
         Low8((c & 0x00FF_0000) >> 15),
         Low8((c & 0x0000_FF00) >> 7),
         Low8((c & 0x0000_00FF) >> 0))
  }

  /** Byte `n` (0 = lowest) of a packed colour. */
  function ByteOf(c: bv32, n: nat): bv8
    requires n < 4
  {
    if n == 0 then Low8(c)
    else if n == 1 then Low8(c >> 8)
    else if n == 2 then Low8(c >> 16)
    else Low8(c >> 24)
  }

  /** Widening an 8-bit value shifted left by one gives the widened value shifted
      left by one and cut back to 8 bits. */
  lemma WidenShiftLeft(b: bv8)
    ensures (b << 1) as bv32 == ((b as bv32) << 1) & 0xFF
  {
  }

  /** Masking byte `8 * k` .. `8 * k + 7` and shifting it right by one bit less than
      its position leaves that byte shifted left by one in the low 8 bits. */
  lemma MaskShiftIsByteShift(c: bv32)
    ensures ((c & 0xFF00_0000) >> 23) & 0xFF == ((c >> 24) << 1) & 0xFF
    ensures ((c & 0x00FF_0000) >> 15) & 0xFF == ((((c >> 16) & 0xFF)) << 1) & 0xFF
    ensures ((c & 0x0000_FF00) >> 7) & 0xFF == ((((c >> 8) & 0xFF)) << 1) & 0xFF
  {
  }

  /** Each of red, green and blue is its colour byte shifted left by one bit inside
      8 bits, so the byte's top bit is lost; alpha is byte 0 unchanged. */
  lemma UnpackColorShifts(c: bv32)
    ensures UnpackColor(c).red == ByteOf(c, 3) << 1
    ensures UnpackColor(c).green == ByteOf(c, 2) << 1
    ensures UnpackColor(c).blue == ByteOf(c, 1) << 1
    ensures UnpackColor(c).alpha == ByteOf(c, 0)
  {
    var rgba := UnpackColor(c);
    MaskShiftIsByteShift(c);
    WidenShiftLeft(ByteOf(c, 3));
    WidenShiftLeft(ByteOf(c, 2));
    WidenShiftLeft(ByteOf(c, 1));
    assert rgba.red as bv32 == (ByteOf(c, 3) << 1) as bv32;
    assert rgba.green as bv32 == (ByteOf(c, 2) << 1) as bv32;
    assert rgba.blue as bv32 == (ByteOf(c, 1) << 1) as bv32;
  }

  /** Shifting an 8-bit value left by one doubles it modulo 256. */
  lemma ShiftLeftDoubles(b: bv8)
    ensures (b << 1) as int == 2 * b as int % 256
  {
  }

  /** In numbers: red, green and blue equal twice bytes 3, 2 and 1 modulo 256, so
      they are always even, and alpha equals byte 0. */
  lemma UnpackColorChannels(c: bv32)
    ensures UnpackColor(c).red as int == 2 * ByteOf(c, 3) as int % 256
    ensures UnpackColor(c).green as int == 2 * ByteOf(c, 2) as int % 256
    ensures UnpackColor(c).blue as int == 2 * ByteOf(c, 1) as int % 256
    ensures UnpackColor(c).alpha == ByteOf(c, 0)
    ensures UnpackColor(c).red as int % 2 == 0
    ensures UnpackColor(c).green as int % 2 == 0
    ensures UnpackColor(c).blue as int % 2 == 0
  {
    UnpackColorShifts(c);
    ShiftLeftDoubles(ByteOf(c, 3));
    ShiftLeftDoubles(ByteOf(c, 2));
    ShiftLeftDoubles(ByteOf(c, 1));
  }

  /** The top bit of each colour byte never reaches the screen: flipping it leaves
      the unpacked colour unchanged. */
  lemma UnpackColorIgnoresTopBits(c: bv32)
    ensures UnpackColor(c ^ 0x8080_8000) == UnpackColor(c)
  {
    UnpackColorShifts(c);
    UnpackColorShifts(c ^ 0x8080_8000);
  }

  /** The three starting ball colours (opaque blue, green and red when read as
      RGBA bytes) come out with the full-intensity channel at 254, not 255. */
  lemma StartingColors()
    ensures UnpackColor(0x0000_FFFF) == Rgba(0, 0, 254, 255)
    ensures UnpackColor(0x00FF_00FF) == Rgba(0, 254, 0, 255)
    ensures UnpackColor(0xFF00_00FF) == Rgba(254, 0, 0, 255)
  {
  }

  /** A paddle's rectangle: thickness wide, paddle height tall, placed around the
      truncated centre, which lies inside it at the halved offsets. */
  function PaddleRect(p: Paddle): (r: Rect)
    ensures r.w == Thickness && r.h == PaddleHeight
    ensures r.x <= Truncate(p.position.x) < r.x + r.w && r.y <= Truncate(p.position.y) < r.y + r.h
    ensures Truncate(p.position.x) - r.x == r.w / 2 && Truncate(p.position.y) - r.y == r.h / 2
  {
    Rect(Truncate(p.position.x) - HalfThickness, Truncate(p.position.y) - HalfPaddleHeight,
         Thickness, PaddleHeight)
  }

  /** A ball's square: thickness on each side, placed around the truncated centre,
      which lies inside it at the halved offset. */
  function BallRect(b: Ball): (r: Rect)
    ensures r.w == Thickness && r.h == Thickness
    ensures r.x <= Truncate(b.position.x) < r.x + r.w && r.y <= Truncate(b.position.y) < r.y + r.h
    ensures Truncate(b.position.x) - r.x == r.w / 2 && Truncate(b.position.y) - r.y == r.h / 2
  {
    Rect(Truncate(b.position.x) - HalfThickness, Truncate(b.position.y) - HalfThickness,
         Thickness, Thickness)
  }

  /** A paddle whose centre is within the clamp range is drawn entirely between the
      top and the bottom wall, never overlapping either. */
  lemma PaddleRectBetweenWalls(p: Paddle)
    requires PaddleInBounds(p)
    ensures PaddleRect(p).y >= TopWall.y + TopWall.h
    ensures PaddleRect(p).y + PaddleRect(p).h <= BottomWall.y
  {
  }

  /** The colour and square commands of the balls, in list order. */
  function BallCommands(balls: seq<Ball>): (cmds: seq<DrawCommand>)
    ensures |cmds| == 2 * |balls|
    ensures forall j :: 0 <= j < |cmds| ==> cmds[j].SetDrawColor? || cmds[j].FillRect?
  {
    if balls == [] then []
    else [SetDrawColor(UnpackColor(balls[0].color)), FillRect(BallRect(balls[0]))]
         + BallCommands(balls[1..])
  }

  /** The fixed start of every frame: clear to the background, then the walls and
      paddles, all four filled in the wall colour. */
  function Backdrop(right: Paddle, left: Paddle): (cmds: seq<DrawCommand>)
    ensures |cmds| == 7
    ensures cmds[0] == SetDrawColor(Background) && cmds[1] == Clear && cmds[2] == SetDrawColor(WallColor)
    ensures forall j :: 3 <= j < |cmds| ==> cmds[j].FillRect?
  {
    [SetDrawColor(Background), Clear, SetDrawColor(WallColor),
     FillRect(TopWall), FillRect(BottomWall), FillRect(PaddleRect(right)), FillRect(PaddleRect(left))]
  }

  /** All commands of one frame: backdrop, then each ball's colour and square, then
      the present. */
  function Frame(right: Paddle, left: Paddle, balls: seq<Ball>): (cmds: seq<DrawCommand>)
    ensures |cmds| == 8 + 2 * |balls|
    ensures cmds[0] == SetDrawColor(Background) && cmds[1] == Clear
    ensures cmds[|cmds| - 1] == Present
    ensures forall j :: 0 <= j < |cmds| ==> (cmds[j] == Clear <==> j == 1)
    ensures forall j :: 0 <= j < |cmds| ==> (cmds[j] == Present <==> j == |cmds| - 1)
  {
    var front := Backdrop(right, left) + BallCommands(balls);
    assert forall j :: 7 <= j < |front| ==> front[j] == BallCommands(balls)[j - 7];
    front + [Present]
  }

  /** Appending a ball appends its two commands. */
  lemma {:induction false} BallCommandsAppend(balls: seq<Ball>, b: Ball)
    ensures BallCommands(balls + [b])
         == BallCommands(balls) + [SetDrawColor(UnpackColor(b.color)), FillRect(BallRect(b))]
  {
    if balls == [] {
      assert balls + [b] == [b];
    } else {
      assert (balls + [b])[1..] == balls[1..] + [b];
      BallCommandsAppend(balls[1..], b);
    }
  }

  /** Ball `k` is drawn by commands 2k and 2k+1: its unpacked colour, then its square. */
  lemma {:induction false} BallCommandsAt(balls: seq<Ball>, k: nat)
    requires k < |balls|
    ensures BallCommands(balls)[2 * k] == SetDrawColor(UnpackColor(balls[k].color))
    ensures BallCommands(balls)[2 * k + 1] == FillRect(BallRect(balls[k]))
  {
    var head := [SetDrawColor(UnpackColor(balls[0].color)), FillRect(BallRect(balls[0]))];
    assert BallCommands(balls) == head + BallCommands(balls[1..]);
    if k > 0 {
      BallCommandsAt(balls[1..], k - 1);
      assert balls[1..][k - 1] == balls[k];
    }
  }

  /** In a frame, ball `k` is drawn by commands 7 + 2k and 8 + 2k, in its own
      unpacked colour, after the walls and paddles. */
  lemma FrameDrawsBall(right: Paddle, left: Paddle, balls: seq<Ball>, k: nat)
    requires k < |balls|
    ensures Frame(right, left, balls)[7 + 2 * k] == SetDrawColor(UnpackColor(balls[k].color))
    ensures Frame(right, left, balls)[8 + 2 * k] == FillRect(BallRect(balls[k]))
  {
    BallCommandsAt(balls, k);
  }
}
