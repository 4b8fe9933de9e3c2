/**
 Direction input. The keyboard handler and the on-screen buttons name the
 four headings differently but apply one rule: while the game runs, a
 heading is taken only when it is perpendicular to the current motion,
 that is, when the current direction has no component on the heading's
 axis. Anything else, and any input while the game is stopped, is ignored.
 */
module Steering {
  import opened Geometry
  import opened Game

  datatype Heading = Up | Down | Left | Right

  /** What an input event names: one of the four headings, or nothing the handlers know. */
  datatype Input = Unknown | Asked(h: Heading)

  /** The direction a heading asks for; screen rows grow downwards. */
  function HeadingVec(h: Heading): (d: Vec)
    ensures IsUnit(d)
  {
    match h
    case Up => Vec(0, -1)
    case Down => Vec(0, 1)
    case Left => Vec(-1, 0)
    case Right => Vec(1, 0)
  }

  /** The rule shared by both input handlers. */
  function Steer(s: State, h: Heading): (r: State)
    // only the direction can change
    ensures r.(direction := s.direction) == s
    // the heading is taken exactly when the game runs and it is perpendicular to the motion
    ensures r.direction == HeadingVec(h) <==>
      s.direction == HeadingVec(h) || (s.running && Dot(HeadingVec(h), s.direction) == 0)
    ensures r.direction != HeadingVec(h) ==> r.direction == s.direction
  {
    if !s.running then s
    else
      match h
      case Up => if s.direction.y == 0 then s.(direction := Vec(0, -1)) else s
      case Down => if s.direction.y == 0 then s.(direction := Vec(0, 1)) else s
      case Left => if s.direction.x == 0 then s.(direction := Vec(-1, 0)) else s
      case Right => if s.direction.x == 0 then s.(direction := Vec(1, 0)) else s
  }

  /** A moving snake is never turned straight back by one input. */
  lemma NoReversal(s: State, h: Heading)
    requires s.direction != Zero
    ensures Steer(s, h).direction != Neg(s.direction)
  {
  }

  /** A unit direction stays a unit direction, and a change is always a quarter turn. */
  lemma SteerTurnsQuarter(s: State, h: Heading)
    requires IsUnit(s.direction)
    ensures IsUnit(Steer(s, h).direction)
    ensures Steer(s, h).direction != s.direction ==> Dot(Steer(s, h).direction, s.direction) == 0
  {
  }

  /** Two inputs in a row can reverse the snake: right, then up, then left. */
  lemma TwoInputsCanReverse(s: State)
    requires s.running && s.direction == Vec(1, 0)
    ensures Steer(Steer(s, Up), Left).direction == Neg(s.direction)
  {
  }

  /** Keys the keyboard handler reacts to. */
  function KeyHeading(key: string): Input {
    if key == "ArrowUp" then Asked(Up)
    else if key == "ArrowDown" then Asked(Down)
    else if key == "ArrowLeft" then Asked(Left)
    else if key == "ArrowRight" then Asked(Right)
    else Unknown
  }

  /** Names the on-screen buttons pass. */
  function ButtonHeading(name: string): Input {
    if name == "up" then Asked(Up)
    else if name == "down" then Asked(Down)
    else if name == "left" then Asked(Left)
    else if name == "right" then Asked(Right)
    else Unknown
  }

  function Dispatch(s: State, i: Input): State {
    match i
    case Unknown => s
    case Asked(h) => Steer(s, h)
  }

  /**
   Keyboard handler: each arrow key applies the shared rule with its
   heading; any other key, or any key while stopped, changes nothing.
   */
  function KeyPress(s: State, key: string): (r: State)
    ensures key == "ArrowUp" ==> r == Steer(s, Up)
    ensures key == "ArrowDown" ==> r == Steer(s, Down)
    ensures key == "ArrowLeft" ==> r == Steer(s, Left)
    ensures key == "ArrowRight" ==> r == Steer(s, Right)
    ensures (!s.running || key !in {"ArrowUp", "ArrowDown", "ArrowLeft", "ArrowRight"}) ==> r == s
    ensures r.(direction := s.direction) == s
  {
    Dispatch(s, KeyHeading(key))
  }

  /**
   Button handler: each button name applies the shared rule with its
   heading; any other name, or any press while stopped, changes nothing.
   */
  function SetDirection(s: State, name: string): (r: State)
    ensures name == "up" ==> r == Steer(s, Up)
    ensures name == "down" ==> r == Steer(s, Down)
    ensures name == "left" ==> r == Steer(s, Left)
    ensures name == "right" ==> r == Steer(s, Right)
    ensures (!s.running || name !in {"up", "down", "left", "right"}) ==> r == s
    ensures r.(direction := s.direction) == s
  {
    Dispatch(s, ButtonHeading(name))
  }

  /** Each arrow key has the same effect as the matching button. */
  lemma KeysMatchButtons(s: State)
    ensures KeyPress(s, "ArrowUp") == SetDirection(s, "up")
    ensures KeyPress(s, "ArrowDown") == SetDirection(s, "down")
    ensures KeyPress(s, "ArrowLeft") == SetDirection(s, "left")
    ensures KeyPress(s, "ArrowRight") == SetDirection(s, "right")
  {
  }
}
