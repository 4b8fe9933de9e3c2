/**
 Cells and directions of the snake board.

 The board is a canvas of `width` by `height` pixels divided into square
 cells of `Grid` pixels. A cell is named by the pixel coordinates of its
 top-left corner; a direction is a vector whose components are -1, 0 or 1.
 Both are plain integer pairs.
 */
module Geometry {

  /** Side of one cell in pixels. */
  const Grid: int := 20

  datatype Vec = Vec(x: int, y: int)

  /** The canvas the game draws on; its size is fixed by the page. */
  datatype Canvas = Canvas(width: int, height: int)

  const Zero: Vec := Vec(0, 0)

  /** One of the four axis-aligned unit vectors. */
  predicate IsUnit(d: Vec) {
    d == Vec(1, 0) || d == Vec(-1, 0) || d == Vec(0, 1) || d == Vec(0, -1)
  }

  function Neg(d: Vec): Vec {
    Vec(-d.x, -d.y)
  }

  function Dot(a: Vec, b: Vec): int {
    a.x * b.x + a.y * b.y
  }

  /** The cell reached from `p` by moving one cell along `d`. */
  function Next(p: Vec, d: Vec): Vec {
    Vec(p.x + d.x * Grid, p.y + d.y * Grid)
  }

  /** The canvas covers the half-open box [0, width) x [0, height). */
  predicate InBounds(c: Canvas, p: Vec) {
    0 <= p.x < c.width && 0 <= p.y < c.height
  }

  /** Both coordinates are multiples of the cell size. */
  predicate Aligned(p: Vec) {
    p.x % Grid == 0 && p.y % Grid == 0
  }

  /** `a` and `b` are neighbouring cells: one cell apart along one axis. */
  predicate Adjacent(a: Vec, b: Vec) {
    || (a.x == b.x && (a.y - b.y == Grid || b.y - a.y == Grid))
    || (a.y == b.y && (a.x - b.x == Grid || b.x - a.x == Grid))
  }

  /** Moving one cell along a unit vector keeps a cell aligned and lands on a neighbour. */
  lemma NextAlignedAdjacent(p: Vec, d: Vec)
    requires IsUnit(d)
    requires Aligned(p)
    ensures Aligned(Next(p, d))
    ensures Adjacent(Next(p, d), p)
    ensures Next(p, d) != p
  {
  }
}
