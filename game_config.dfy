/**
 * The read-only game configuration a `Model` copies at construction.
 * `paddleTopLeft0` and `brickDims` are computed by the configuration itself
 * (`paddle_top_left_0()`, `brick_dims()`); here they are plain values.
 */
module GameConfig {
  import opened Geometry

  datatype Config = Config(
    sceneDims: Dims,        // the playfield, with its top-left at (0, 0)
    ballRadius: int,
    ballVelocity0: Dims,    // velocity of a freshly made ball
    paddleDims: Dims,
    paddleTopLeft0: Posn,
    brickRows: nat,
    brickCols: nat,
    brickDims: Dims,
    brickSpacing: Dims,
    sideMargin: int,
    topMargin: int,
    maxBoost: int)
  {
    /** What the game assumes of a configuration: positive sizes, no negative gaps or boosts. */
    predicate Valid()
    {
      && sceneDims.width > 0 && sceneDims.height > 0
      && ballRadius > 0
      && paddleDims.width > 0 && paddleDims.height > 0
      && brickDims.width > 0 && brickDims.height > 0
      && brickSpacing.width >= 0 && brickSpacing.height >= 0
      && maxBoost >= 0
    }
  }
}
