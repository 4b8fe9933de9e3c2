# Snake game state machine

A Dafny model of the game logic of a browser snake game that is unlocked by
a wallet micropayment. The page keeps the game in global variables:

- the snake as a head-first list of cells;
- a direction vector;
- the food cell, the score and the tick interval (`speed`);
- a `running` flag.

Timer ticks, key presses and button presses mutate these globals. The
model keeps the same fields in an immutable `State` record, and each
handler becomes a pure function:

- `Game.InitGame`: the values at page load;
- `Game.StartGame`: the reset done after a successful payment;
- `Game.Begin`: the end of the countdown;
- `Game.Update`: one timer tick;
- `Game.End`: the end of a run;
- `Game.GenFood`: the food generator;
- `Steering.Steer`: the direction rule shared by the keyboard and the
  on-screen buttons.

`Address.ShortAddr` models the abbreviation of the connected wallet address.

The board is a canvas of `width` by `height` pixels with 20-pixel cells.
Cells are named by the pixel coordinates of their top-left corner. The
random numbers the food generator draws are passed in as two cell indices,
`ix` and `iy`. `Invariants.Run` folds any sequence of page events over a
state: a paid start, the end of the countdown, a tick, or a direction
input. The main result is `Invariants.Reachable`: on a canvas larger than
200 by 200, every reachable state is well formed. Well formed means:

- the snake is a non-empty chain of neighbouring, distinct, grid-aligned
  cells inside the canvas;
- the food is an aligned cell inside the canvas;
- the direction is zero or a unit axis vector;
- the score is even and not negative;
- the interval equals `max(50, 150 - 10 * (score / 10))`.

Three points of the code that the model keeps as they are:

- The reset leaves `running` and the food as they are (script.js:112).
- Ending a run only clears `running`; the body, score and interval stay
  as they were (script.js:165).
- An accepted turn is a quarter turn, so from moving right to moving up
  both components of the direction change; the contract of
  `Steering.Steer` says perpendicular (dot product zero).

script.js uses `%` once, on the score (script.js:153), which is never
negative, so Dafny's `%` agrees with JavaScript's there. The model's own
`Geometry.Aligned` uses `% 20 == 0` only as a divisibility test, which
means the same under either convention, negative coordinates included.

## Model

| member | source | states |
|---|---|---|
| Game.InitGame | script.js:76-77 | page load: every global has its initial value except the food, which is the aligned cell inside the canvas whose column and row indices are the drawn ones (the `genFood` call at line 107) |
| Game.GenFood | script.js:163 | the food is an aligned cell inside the canvas whose column and row indices are the drawn ones |
| Game.GenFoodReachesEveryCell | script.js:163 | conversely, every aligned cell of the canvas is produced by some valid draw |
| Game.StartGame | script.js:112 | a reset leaves a single segment at (200,200), zero direction, score 0 and interval 150, and leaves the food and the flag as they were |
| Game.StartGameIgnoresPriorRun | script.js:112 | the reset's result depends on the previous state only through its food and flag |
| Game.Begin | script.js:143 | the game runs and heads right, and nothing else changes |
| Game.End | script.js:165 | the game stops and every other field, the reported score included, is unchanged |
| Game.Update | script.js:146-155 | a stopped game ignores the tick; the run goes on exactly when the next head is inside the canvas and not on the pre-move body; an ended run changes nothing but the flag; on the food the body becomes the head followed by the whole old body, the score grows by 2 and the food is redrawn; elsewhere the body becomes the head followed by the old body without its tail, and score and food are kept; the length grows by at most one and never shrinks; the interval changes only on a food tick with a score that is a multiple of 10 while above 50, and then by -10 |
| Game.HitsBody | script.js:150 | the segment-by-segment scan reports a hit exactly when the next head is a cell of the body |
| Geometry.NextAlignedAdjacent | script.js:148 | one step along a unit direction from an aligned cell reaches a different, aligned, neighbouring cell |
| Steering.HeadingVec | script.js:169-172 | each of the four headings asks for a unit axis vector |
| Steering.Steer | script.js:167-181 | only the direction can change; the heading is taken exactly when the game runs and the heading is perpendicular to the current direction; otherwise the direction is kept |
| Steering.NoReversal | script.js:169-172 | a nonzero direction is never replaced by its exact reverse |
| Steering.SteerTurnsQuarter | script.js:177-180 | a unit direction stays a unit direction, and any change of it is a quarter turn |
| Steering.TwoInputsCanReverse | script.js:169-172 | two inputs in a row (up, then left) do reverse a snake that was moving right |
| Steering.KeyPress | script.js:167-173 | each of ArrowUp, ArrowDown, ArrowLeft and ArrowRight applies the shared rule with heading up, down, left or right; any other key, or any key while stopped, changes nothing; only the direction can change |
| Steering.SetDirection | script.js:175-181 | each of the names up, down, left and right applies the shared rule with that heading; any other name, or any press while stopped, changes nothing; only the direction can change |
| Steering.KeysMatchButtons | script.js:167-181 | each arrow key has the same effect as the matching direction button |
| Invariants.SpeedFor | script.js:153 | the interval the score calls for lies between 50 and 150 and is a multiple of 10 |
| Invariants.SpeedAfterEating | script.js:152-153 | for an even score, adding 2 points and applying the speed-up rule gives the interval the new score calls for |
| Invariants.InitGameWellFormed | script.js:76-77 | the page-load state is well formed |
| Invariants.StartGameWellFormed | script.js:112 | a reset gives a well-formed state whenever the food is on the canvas |
| Invariants.BeginPreserves | script.js:143 | the end of the countdown keeps a state well formed |
| Invariants.SteerPreserves | script.js:167-181 | direction input keeps a state well formed |
| Invariants.PushHead | script.js:151 | pushing an unoccupied neighbouring head keeps the body an aligned, in-bounds, connected, non-overlapping chain |
| Invariants.DropTail | script.js:154 | dropping the tail keeps such a chain a chain |
| Invariants.UpdatePreserves | script.js:146-155 | a tick keeps a state well formed: the body stays grid-aligned, inside the canvas, connected and non-overlapping, and the interval keeps matching the score |
| Invariants.Apply | script.js:112-181 | handling any page event keeps the body non-empty |
| Invariants.ApplyPreserves | script.js:112-181 | every single page event keeps a state well formed |
| Invariants.RunPreserves | script.js:112-181 | every sequence of page events keeps a state well formed |
| Invariants.Reachable | script.js:76-181 | every state reached after page load is well formed, and its interval lies between 50 and 150 |
| Invariants.RunNeverSlower | script.js:152-153 | between two resets the interval never grows and the score never falls |
| Invariants.RunKeepsUnitDirection | script.js:143-181 | once moving along an axis, the snake keeps moving along an axis until the next reset |
| Invariants.AfterBeginUnitDirection | script.js:143-181 | once the countdown has ended, the direction is one of the four unit axis vectors after any events up to the next reset |
| Invariants.RestartIgnoresPriorRun | script.js:112-115 | after a reset, the outcome of any later events depends on the previous run only through the food it left behind and the running flag |
| Scenarios.TailCellEndsRun | script.js:150-154 | heading into the cell the tail is about to leave ends the run and leaves the body untouched |
| Scenarios.CoiledSnakeBitesTail | script.js:150 | a coiled, well-formed snake of four whose head faces its tail ends its run |
| Scenarios.FoodCanLandOnBody | script.js:163 | the food can be drawn onto a cell the snake occupies |
| Scenarios.EightToTen | script.js:152-153 | eating at score 8 gives score 10 and shortens the interval from 150 to 140 |
| Scenarios.LeftWallEndsRun | script.js:149 | a snake of three moving left from column zero ends the run with its score and body unchanged |
| Address.ShortAddr | script.js:70 | the abbreviation is the first six characters, or fewer if the string is shorter, then an ellipsis, then the last four, or fewer |
| Address.ShortAddrLong | script.js:70 | for an address of ten characters or more it is exactly the first six, the ellipsis and the last four, eleven characters in all |

## Left out

- Wallet connection and chain switching (script.js:17-48): these are calls into the injected wallet provider and the ethers library, and they are asynchronous I/O.
- Sending and confirming the payment (script.js:50-66) and the retry flow (script.js:119-135): network plumbing. The amount conversion is a library call. The model only has the resulting `Start` event, which the page fires after a confirmed payment.
- Status text, class toggles and element wiring (script.js:68-69, 81-106, 113-114, 165): DOM updates only. The score shown at the end is the frozen `score` field.
- Drawing (script.js:157-161) and image loading (script.js:78-79): rendering reads the state and changes nothing.
- Timers: the countdown chain (script.js:137-141), `setInterval` and `clearInterval`, and re-arming the timer at the new interval (script.js:153). Only their effect on the state is modelled: a `Go` event after the countdown and a `Tick` event per firing. `speed` is kept as data.
- `Math.random`: replaced by the two drawn cell indices. The valid indices are exactly those with `index * 20 < width` (resp. height), which is the range of `floor(random * (width / 20))` on a canvas of positive size. A zero-size canvas, where the page would place food at 0, is not modelled.
- JavaScript numbers are doubles. The model uses unbounded integers, and scores far beyond 2^53 are not modelled.
- JavaScript strings are UTF-16. `Address.ShortAddr` counts Dafny characters, which agrees for the ASCII addresses a wallet reports.
- A tick with an empty snake, where the page would fail on `snake[0]`: `Game.Update` requires a non-empty snake while the game runs, and every reachable state has one.
