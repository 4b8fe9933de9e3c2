/**
 The state of the snake game and its transitions: the page-load state,
 the reset performed when a paid game starts, the end of the countdown,
 one timer tick, the end of a run and the food generator.

 The page keeps all of this in global variables that the handlers mutate;
 here a `State` is an immutable record and every handler is a function
 from the old record to the new one. Randomness is an argument: the food
 generator receives the two cell indices that the page draws at random.
 */
module Game {
  import opened Geometry

  /** Cell of the single segment a new game starts with. */
  const Origin: Vec := Vec(200, 200)
  /** Tick interval in milliseconds at the start of a game. */
  const InitialSpeed: int := 150
  /** The interval is only shortened while it is above this floor. */
  const MinSpeed: int := 50
  /** Amount by which the interval is shortened. */
  const SpeedStep: int := 10
  /** Points for one piece of food. */
  const Reward: int := 2
  /** The interval is shortened when the score reaches a multiple of this. */
  const SpeedUpEvery: int := 10

  /**
   `snake` lists the occupied cells head first; `direction` is the motion
   per tick in cells; `speed` is the tick interval; `running` is true
   between the end of the countdown and the end of the run.
   */
  datatype State = State(
    snake: seq<Vec>,
    direction: Vec,
    food: Vec,
    score: int,
    speed: int,
    running: bool)

  /** The values the page's globals hold when the script is loaded. */
  const Boot: State := State([Origin], Zero, Zero, 0, InitialSpeed, false)

  /**
   The cell indices the page can draw: `floor(random * (width / Grid))`
   with `random` in [0, 1) is exactly a natural `i` with `i * Grid < width`.
   */
  predicate ValidRoll(c: Canvas, ix: int, iy: int) {
    0 <= ix && ix * Grid < c.width && 0 <= iy && iy * Grid < c.height
  }

  /** Places the food on the cell with the drawn column and row indices. */
  function GenFood(c: Canvas, ix: int, iy: int): (r: Vec)
    requires ValidRoll(c, ix, iy)
    ensures Aligned(r) && InBounds(c, r)
    ensures r.x / Grid == ix && r.y / Grid == iy
  {
    Vec(ix * Grid, iy * Grid)
  }

  /** Every aligned cell of the canvas is the outcome of some draw. */
  lemma GenFoodReachesEveryCell(c: Canvas, p: Vec)
    requires Aligned(p) && InBounds(c, p)
    ensures ValidRoll(c, p.x / Grid, p.y / Grid)
    ensures GenFood(c, p.x / Grid, p.y / Grid) == p
  {
  }

  /** Page load: the globals' initial values, then one call of the food generator. */
  function InitGame(c: Canvas, ix: int, iy: int): (r: State)
    requires ValidRoll(c, ix, iy)
    ensures r.(food := Boot.food) == Boot
    ensures Aligned(r.food) && InBounds(c, r.food)
    ensures r.food.x / Grid == ix && r.food.y / Grid == iy
  {
    Boot.(food := GenFood(c, ix, iy))
  }

  /**
   Reset done when a paid game starts. The food and the `running` flag
   are not touched; the countdown that follows is outside the state.
   */
  function StartGame(s: State): (r: State)
    ensures r.snake == [Origin] && r.direction == Zero
    ensures r.score == 0 && r.speed == InitialSpeed
    ensures r.food == s.food && r.running == s.running
  {
    s.(snake := [Origin], direction := Zero, score := 0, speed := InitialSpeed)
  }

  /** The result of a reset depends on nothing of the previous run but the food and the flag. */
  lemma StartGameIgnoresPriorRun(s: State, t: State)
    requires s.food == t.food && s.running == t.running
    ensures StartGame(s) == StartGame(t)
  {
  }

  /** End of the countdown: the snake heads right and the game runs. */
  function Begin(s: State): (r: State)
    ensures r.running && IsUnit(r.direction) && r.direction.x > 0
    ensures r.(direction := s.direction, running := s.running) == s
  {
    s.(direction := Vec(1, 0), running := true)
  }

  /** End of a run: the game stops and everything else, the score included, is frozen. */
  function End(s: State): (r: State)
    ensures !r.running
    ensures r.(running := s.running) == s
  {
    s.(running := false)
  }

  /** Score after eating: the score grows by the reward. */
  function Eaten(score: int): int {
    score + Reward
  }

  /** Interval after eating, given the new score. */
  function Faster(score: int, speed: int): int {
    if score % SpeedUpEvery == 0 && speed > MinSpeed then speed - SpeedStep else speed
  }

  /**
   One timer tick. Nothing happens unless the game runs. The next head is
   one cell from the current head along the direction. The run ends when
   that cell is off the canvas or is any cell of the current body, the
   tail cell included (the check comes before the tail is dropped).
   Otherwise the head is pushed; on the food cell the score grows, new
   food is drawn from `ix`, `iy` and the interval may shrink, and anywhere
   else the tail is dropped.
   */
  function Update(c: Canvas, s: State, ix: int, iy: int): (r: State)
    requires s.running ==> |s.snake| > 0
    requires ValidRoll(c, ix, iy)
    // a stopped game ignores the tick
    ensures !s.running ==> r == s
    // the game goes on exactly when the next head is a free cell of the canvas
    ensures s.running ==>
      var head := Next(s.snake[0], s.direction);
      (r.running <==> InBounds(c, head) && head !in s.snake)
    // when the run ends, nothing but the flag changes
    ensures !r.running ==> r.(running := s.running) == s
    // while it goes on, the direction is kept and the new head is in front
    ensures r.running ==>
      |r.snake| > 0 && r.snake[0] == Next(s.snake[0], s.direction) && r.direction == s.direction
    // on the food: the whole old body follows the head, and the score grows
    ensures r.running && r.snake[0] == s.food ==>
      && r.snake[1..] == s.snake
      && r.score == s.score + Reward
      && r.food == GenFood(c, ix, iy)
    // elsewhere: the old body minus its tail follows the head, score and food are kept
    ensures r.running && r.snake[0] != s.food ==>
      && r.snake[1..] == s.snake[..|s.snake| - 1]
      && r.score == s.score
      && r.food == s.food
    // the body never shrinks, and grows by at most one segment
    ensures |s.snake| > 0 ==> |s.snake| <= |r.snake| <= |s.snake| + 1
    // the interval changes only on the food, at a multiple of the threshold, above the floor
    ensures r.speed != s.speed <==>
      && r.running && r.snake[0] == s.food
      && r.score % SpeedUpEvery == 0 && s.speed > MinSpeed
    ensures r.speed != s.speed ==> r.speed == s.speed - SpeedStep
  {
    if !s.running then s
    else
      var head := Next(s.snake[0], s.direction);
      if !InBounds(c, head) then End(s)
      else if head in s.snake then End(s)
      else
        var body := [head] + s.snake;
        if head == s.food then
          var score := Eaten(s.score);
          s.(snake := body, score := score, food := GenFood(c, ix, iy), speed := Faster(score, s.speed))
        else
          s.(snake := body[..|body| - 1])
  }

  /**
   The page's scan of the body for the next head, one segment at a time,
   comparing both coordinates; it reports a hit exactly when the cell is
   part of the body.
   */
  method HitsBody(body: seq<Vec>, head: Vec) returns (hit: bool)
    ensures hit <==> head in body
  {
    var i := 0;
    while i < |body|
      invariant 0 <= i <= |body|
      invariant head !in body[..i]
    {
      if body[i].x == head.x && body[i].y == head.y {
        return true;
      }
      i := i + 1;
    }
    assert body[..i] == body;
    return false;
  }
}
