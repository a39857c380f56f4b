/**
 * Integer screen geometry shared by the paddle, the bricks and the ball.
 * `x` grows to the right and `y` grows downwards, as on screen.
 */
module Geometry {

  /** A point of the playfield. */
  datatype Posn = Posn(x: int, y: int)

  /** A pair of extents; velocities use the same shape (pixels per second). */
  datatype Dims = Dims(width: int, height: int)

  /** An axis-aligned rectangle: top-left corner and extents. */
  datatype Block = Block(x: int, y: int, width: int, height: int)

  /** `Block::from_top_left`: the rectangle with the given corner and extents. */
  function FromTopLeft(p: Posn, d: Dims): Block
  {
    Block(p.x, p.y, d.width, d.height)
  }

  /**
   * Two rectangles overlap when their projections on both axes meet in an
   * interval of nonzero length; rectangles that only share an edge do not.
   */
  predicate Overlaps(a: Block, b: Block)
  {
    a.x < b.x + b.width && b.x < a.x + a.width &&
    a.y < b.y + b.height && b.y < a.y + a.height
  }
}
