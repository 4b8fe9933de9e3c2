/**
 Single ticks worth spelling out: the order of the self-collision test and
 the tail drop, food landing on the body, the first speed-up and a run
 ending at the wall.
 */
module Scenarios {
  import opened Geometry
  import opened Game
  import opened Invariants

  /**
   The body test comes before the tail is dropped, so heading into the cell
   the tail is about to leave ends the run, body untouched.
   */
  lemma TailCellEndsRun(c: Canvas, s: State, ix: int, iy: int)
    requires s.running && |s.snake| > 0 && ValidRoll(c, ix, iy)
    requires Next(s.snake[0], s.direction) == s.snake[|s.snake| - 1]
    ensures !Update(c, s, ix, iy).running
    ensures Update(c, s, ix, iy).snake == s.snake
  {
  }

  /** A coiled snake of four whose head faces its tail, with no food in the way. */
  lemma CoiledSnakeBitesTail()
    ensures
      var c := Canvas(400, 400);
      var s := State([Vec(0, 0), Vec(0, 20), Vec(20, 20), Vec(20, 0)], Vec(1, 0), Vec(100, 100), 6, 150, true);
      && WellFormed(c, s)
      && Update(c, s, 0, 0) == End(s)
  {
    var s := State([Vec(0, 0), Vec(0, 20), Vec(20, 20), Vec(20, 0)], Vec(1, 0), Vec(100, 100), 6, 150, true);
    assert Next(s.snake[0], s.direction) == s.snake[3];
  }

  /** Food is drawn over the whole canvas: it can land on the snake itself. */
  lemma FoodCanLandOnBody(c: Canvas, s: State)
    requires WellFormed(c, s)
    ensures exists ix, iy :: ValidRoll(c, ix, iy) && GenFood(c, ix, iy) == s.snake[0]
  {
    var p := s.snake[0];
    assert Aligned(p) && InBounds(c, p);
    GenFoodReachesEveryCell(c, p);
  }

  /** At a score of eight, eating makes ten and shortens the interval by one step. */
  lemma EightToTen(c: Canvas, s: State, ix: int, iy: int)
    requires WellFormed(c, s) && s.running && s.score == 8
    requires ValidRoll(c, ix, iy)
    requires Next(s.snake[0], s.direction) == s.food
    requires s.food !in s.snake
    ensures Update(c, s, ix, iy).score == 10
    ensures Update(c, s, ix, iy).speed == InitialSpeed - SpeedStep
  {
  }

  /** A snake of three moving left off column zero ends the run with its score kept. */
  lemma LeftWallEndsRun()
    ensures
      var c := Canvas(400, 400);
      var s := State([Vec(0, 100), Vec(20, 100), Vec(40, 100)], Vec(-1, 0), Vec(200, 200), 4, 150, true);
      var r := Update(c, s, 3, 3);
      && WellFormed(c, s)
      && !r.running && r.score == 4 && r.snake == s.snake
  {
  }
}
