/**
 What holds of every state the page reaches, and why.

 On a canvas large enough to hold the origin cell, every state reachable
 from page load keeps a non-empty, self-avoiding, connected chain of
 aligned cells inside the canvas, aligned food inside the canvas, a zero
 or unit direction, an even non-negative score, and a tick interval that
 is a fixed function of the score. The reachable states are those of any
 sequence of page events: starting a paid game, the end of its countdown,
 timer ticks and direction inputs.
 */
module Invariants {
  import opened Geometry
  import opened Game
  import Steering

  /** The canvas holds the origin cell (the page's canvas is larger than 200 by 200). */
  predicate FitsOrigin(c: Canvas) {
    c.width > Origin.x && c.height > Origin.y
  }

  predicate OnBoard(c: Canvas, body: seq<Vec>) {
    forall i :: 0 <= i < |body| ==> Aligned(body[i]) && InBounds(c, body[i])
  }

  /** Consecutive segments are neighbouring cells. */
  predicate Connected(body: seq<Vec>) {
    forall i :: 0 <= i < |body| - 1 ==> Adjacent(body[i], body[i + 1])
  }

  /** No cell is occupied twice. */
  predicate NoOverlap(body: seq<Vec>) {
    forall i, j :: 0 <= i < j < |body| ==> body[i] != body[j]
  }

  /**
   The tick interval for a score: one step faster per multiple of
   `SpeedUpEvery` reached, never below the floor.
   */
  function SpeedFor(score: int): (r: int)
    requires score >= 0
    ensures MinSpeed <= r <= InitialSpeed
    ensures r % SpeedStep == 0
  {
    var v := InitialSpeed - SpeedStep * (score / SpeedUpEvery);
    if v > MinSpeed then v else MinSpeed
  }

  predicate WellFormed(c: Canvas, s: State) {
    && |s.snake| > 0
    && OnBoard(c, s.snake)
    && Connected(s.snake)
    && NoOverlap(s.snake)
    && Aligned(s.food) && InBounds(c, s.food)
    && (s.direction == Zero || IsUnit(s.direction))
    && s.score >= 0 && s.score % Reward == 0
    && s.speed == SpeedFor(s.score)
  }

  /** Page load yields a well-formed state. */
  lemma InitGameWellFormed(c: Canvas, ix: int, iy: int)
    requires FitsOrigin(c) && ValidRoll(c, ix, iy)
    ensures WellFormed(c, InitGame(c, ix, iy))
  {
  }

  /** A reset yields a well-formed state whenever the food is on the canvas. */
  lemma StartGameWellFormed(c: Canvas, s: State)
    requires FitsOrigin(c)
    requires Aligned(s.food) && InBounds(c, s.food)
    ensures WellFormed(c, StartGame(s))
  {
  }

  lemma BeginPreserves(c: Canvas, s: State)
    requires WellFormed(c, s)
    ensures WellFormed(c, Begin(s))
  {
  }

  lemma SteerPreserves(c: Canvas, s: State, h: Steering.Heading)
    requires WellFormed(c, s)
    ensures WellFormed(c, Steering.Steer(s, h))
  {
  }

  /** Two more points keep the interval equal to the one the score calls for. */
  lemma SpeedAfterEating(score: int)
    requires score >= 0 && score % Reward == 0
    ensures Faster(Eaten(score), SpeedFor(score)) == SpeedFor(Eaten(score))
  {
  }

  /** Putting a new neighbouring, unoccupied head in front of a chain keeps it a chain. */
  lemma PushHead(c: Canvas, head: Vec, body: seq<Vec>)
    requires |body| > 0
    requires OnBoard(c, body) && Connected(body) && NoOverlap(body)
    requires Aligned(head) && InBounds(c, head)
    requires Adjacent(head, body[0]) && head !in body
    ensures OnBoard(c, [head] + body)
    ensures Connected([head] + body)
    ensures NoOverlap([head] + body)
  {
  }

  /** Dropping the tail keeps a chain a chain. */
  lemma DropTail(c: Canvas, body: seq<Vec>)
    requires |body| > 0
    requires OnBoard(c, body) && Connected(body) && NoOverlap(body)
    ensures OnBoard(c, body[..|body| - 1])
    ensures Connected(body[..|body| - 1])
    ensures NoOverlap(body[..|body| - 1])
  {
  }

  /** A tick keeps a well-formed state well formed, whatever it does. */
  lemma UpdatePreserves(c: Canvas, s: State, ix: int, iy: int)
    requires WellFormed(c, s)
    requires ValidRoll(c, ix, iy)
    ensures WellFormed(c, Update(c, s, ix, iy))
  {
    var r := Update(c, s, ix, iy);
    if s.running && r.running {
      var head := Next(s.snake[0], s.direction);
      assert IsUnit(s.direction);
      NextAlignedAdjacent(s.snake[0], s.direction);
      PushHead(c, head, s.snake);
      var body := [head] + s.snake;
      if head == s.food {
        assert r.snake == body;
        SpeedAfterEating(s.score);
      } else {
        assert r.snake == body[..|body| - 1];
        DropTail(c, body);
      }
    }
  }

  /** The events of the page that act on the game state. */
  datatype Event =
    | Start                    // a paid game starts
    | Go                       // its countdown has run out
    | Tick(ix: int, iy: int)   // the timer fires; the indices are the food draw
    | Press(h: Steering.Heading)  // an arrow key or a direction button

  predicate ValidRolls(c: Canvas, es: seq<Event>) {
    forall i :: 0 <= i < |es| && es[i].Tick? ==> ValidRoll(c, es[i].ix, es[i].iy)
  }

  lemma TailRolls(c: Canvas, es: seq<Event>)
    requires |es| > 0 && ValidRolls(c, es)
    ensures ValidRolls(c, es[1..])
  {
  }

  function Apply(c: Canvas, s: State, e: Event): (r: State)
    requires |s.snake| > 0
    requires e.Tick? ==> ValidRoll(c, e.ix, e.iy)
    ensures |r.snake| > 0
  {
    match e
    case Start => StartGame(s)
    case Go => Begin(s)
    case Tick(ix, iy) => Update(c, s, ix, iy)
    case Press(h) => Steering.Steer(s, h)
  }

  /** The state after a sequence of events, applied in order. */
  function Run(c: Canvas, s: State, es: seq<Event>): State
    requires |s.snake| > 0
    requires ValidRolls(c, es)
    decreases |es|
  {
    if es == [] then s
    else
      TailRolls(c, es);
      Run(c, Apply(c, s, es[0]), es[1..])
  }

  lemma ApplyPreserves(c: Canvas, s: State, e: Event)
    requires FitsOrigin(c) && WellFormed(c, s)
    requires e.Tick? ==> ValidRoll(c, e.ix, e.iy)
    ensures WellFormed(c, Apply(c, s, e))
  {
    match e
    case Start => StartGameWellFormed(c, s);
    case Go => BeginPreserves(c, s);
    case Tick(ix, iy) => UpdatePreserves(c, s, ix, iy);
    case Press(h) => SteerPreserves(c, s, h);
  }

  /** Every state reached from a well-formed one is well formed. */
  lemma {:induction false} RunPreserves(c: Canvas, s: State, es: seq<Event>)
    requires FitsOrigin(c) && WellFormed(c, s)
    requires ValidRolls(c, es)
    ensures WellFormed(c, Run(c, s, es))
    decreases |es|
  {
    if es != [] {
      ApplyPreserves(c, s, es[0]);
      TailRolls(c, es);
      RunPreserves(c, Apply(c, s, es[0]), es[1..]);
    }
  }

  /** Every state the page reaches after loading is well formed. */
  lemma Reachable(c: Canvas, ix: int, iy: int, es: seq<Event>)
    requires FitsOrigin(c) && ValidRoll(c, ix, iy) && ValidRolls(c, es)
    ensures WellFormed(c, Run(c, InitGame(c, ix, iy), es))
    ensures MinSpeed <= Run(c, InitGame(c, ix, iy), es).speed <= InitialSpeed
  {
    InitGameWellFormed(c, ix, iy);
    RunPreserves(c, InitGame(c, ix, iy), es);
  }

  predicate NoStart(es: seq<Event>) {
    forall i :: 0 <= i < |es| ==> !es[i].Start?
  }

  lemma TailNoStart(es: seq<Event>)
    requires |es| > 0 && NoStart(es)
    ensures NoStart(es[1..])
  {
  }

  /**
   Within one run, that is, between two resets, the interval never grows
   and the score never falls.
   */
  lemma {:induction false} RunNeverSlower(c: Canvas, s: State, es: seq<Event>)
    requires |s.snake| > 0
    requires ValidRolls(c, es) && NoStart(es)
    ensures Run(c, s, es).speed <= s.speed
    ensures Run(c, s, es).score >= s.score
    decreases |es|
  {
    if es != [] {
      var t := Apply(c, s, es[0]);
      assert !es[0].Start?;
      assert t.speed <= s.speed && t.score >= s.score;
      TailRolls(c, es);
      TailNoStart(es);
      RunNeverSlower(c, t, es[1..]);
    }
  }

  /** Once the snake moves, it keeps moving along an axis until the next reset. */
  lemma {:induction false} RunKeepsUnitDirection(c: Canvas, s: State, es: seq<Event>)
    requires |s.snake| > 0 && IsUnit(s.direction)
    requires ValidRolls(c, es) && NoStart(es)
    ensures IsUnit(Run(c, s, es).direction)
    decreases |es|
  {
    if es != [] {
      var t := Apply(c, s, es[0]);
      assert !es[0].Start?;
      if es[0].Press? {
        Steering.SteerTurnsQuarter(s, es[0].h);
      }
      TailRolls(c, es);
      TailNoStart(es);
      RunKeepsUnitDirection(c, t, es[1..]);
    }
  }

  /** After the countdown ends, the direction is a unit axis vector until the next reset. */
  lemma AfterBeginUnitDirection(c: Canvas, s: State, es: seq<Event>)
    requires |s.snake| > 0
    requires ValidRolls(c, es) && NoStart(es)
    ensures IsUnit(Run(c, s, [Go] + es).direction)
  {
    assert ([Go] + es)[1..] == es;
    RunKeepsUnitDirection(c, Begin(s), es);
  }

  /**
   A reset forgets the previous run apart from the food it left behind and
   the running flag: later events then act the same, however the run ended.
   */
  lemma RestartIgnoresPriorRun(c: Canvas, s: State, t: State, es: seq<Event>)
    requires |s.snake| > 0 && |t.snake| > 0
    requires s.food == t.food && s.running == t.running
    requires ValidRolls(c, es)
    ensures Run(c, s, [Start] + es) == Run(c, t, [Start] + es)
  {
  }
}
