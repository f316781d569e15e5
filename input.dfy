/** The input side of a frame: the events drained from the platform queue and the
    keyboard snapshot, and how held keys become a paddle direction. */
module Input {

  /** A drained platform event; only the quit request is acted on. */
  datatype Event = Quit | Other

  /** The keys the game reads from the keyboard snapshot: Escape, I/K for the right
      paddle, W/S for the left paddle. */
  datatype KeyState = KeyState(escape: bool, i: bool, k: bool, w: bool, s: bool)

  /** The direction two held keys ask for: the up key contributes -1, the down key
      +1, so holding both or neither gives 0. */
  function KeyDirection(up: bool, down: bool): (d: int)
    ensures -1 <= d <= 1
    ensures d == 1 <==> down && !up
    ensures d == -1 <==> up && !down
    ensures d == 0 <==> up == down
  {
    (if down then 1 else 0) - (if up then 1 else 0)
  }

  /** Whether a frame's input asks the game to stop: a quit event among the drained
      events, or Escape held. */
  predicate StopRequested(events: seq<Event>, keys: KeyState) {
    Quit in events || keys.escape
  }
}
