/**
 * The ball: its state, the tests the model asks of it, and the two ways it is
 * changed (reflection and advancing in time). `Ball::next`'s arithmetic is not
 * part of this model: it is supplied as an `Integrator`.
 */
module Balls {
  import opened Geometry
  import opened GameConfig

  /** A round ball: its radius, centre, velocity, and whether it flies free. */
  datatype Ball = Ball(radius: int, center: Posn, velocity: Dims, live: bool)

  /** Where a centre moving with a velocity is after `dt` seconds. */
  type Integrator = (Posn, Dims, real) -> Posn

  /** The square that bounds the ball. */
  function BoundingBox(b: Ball): Block
  {
    Block(b.center.x - b.radius, b.center.y - b.radius, 2 * b.radius, 2 * b.radius)
  }

  /**
   * A ball that is not live tracks the paddle: its horizontal centre is the
   * paddle's, and its bottom edge rests on the paddle's top edge.
   */
  predicate Tracks(b: Ball, paddle: Block)
  {
    !b.live && b.center.x == paddle.x + paddle.width / 2 && b.center.y + b.radius == paddle.y
  }

  /** `Ball(paddle, config)`: a fresh ball resting on the paddle, not yet launched. */
  function TrackingBall(paddle: Block, cfg: Config): (b: Ball)
    ensures Tracks(b, paddle)
    ensures b.radius == cfg.ballRadius && b.velocity == cfg.ballVelocity0
    ensures !HitsBlock(b, paddle)
  {
    Ball(cfg.ballRadius,
         Posn(paddle.x + paddle.width / 2, paddle.y - cfg.ballRadius),
         cfg.ballVelocity0,
         false)
  }

  /** `Ball::next(dt)`: the same ball `dt` seconds later; only its centre moves. */
  function Next(b: Ball, dt: real, advance: Integrator): (r: Ball)
    ensures r.live == b.live && r.velocity == b.velocity && r.radius == b.radius
  {
    b.(center := advance(b.center, b.velocity, dt))
  }

  /** The ball's bottom edge is below the bottom of the playfield. */
  predicate HitsBottom(b: Ball, cfg: Config): (r: bool)
    ensures r <==> BoundingBox(b).y + BoundingBox(b).height > cfg.sceneDims.height
  {
    b.center.y + b.radius > cfg.sceneDims.height
  }

  /** The ball's top edge is above the top of the playfield. */
  predicate HitsTop(b: Ball, cfg: Config): (r: bool)
    ensures r <==> BoundingBox(b).y < 0
  {
    b.center.y - b.radius < 0
  }

  /** The ball's left or right edge is outside the playfield. */
  predicate HitsSide(b: Ball, cfg: Config): (r: bool)
    ensures r <==> BoundingBox(b).x < 0 || BoundingBox(b).x + BoundingBox(b).width > cfg.sceneDims.width
  {
    b.center.x - b.radius < 0 || b.center.x + b.radius > cfg.sceneDims.width
  }

  /** The ball's bounding box overlaps the block. */
  predicate HitsBlock(b: Ball, block: Block): (r: bool)
    ensures r <==> Overlaps(block, BoundingBox(b))
    ensures r ==> block.width + 2 * b.radius > 0 && block.height + 2 * b.radius > 0
  {
    Overlaps(BoundingBox(b), block)
  }

  /** Negates the horizontal component of the velocity. */
  function ReflectHorizontal(b: Ball): (r: Ball)
    ensures r.velocity.width == -b.velocity.width
    ensures r.(velocity := b.velocity) == b && r.velocity.height == b.velocity.height
  {
    b.(velocity := b.velocity.(width := -b.velocity.width))
  }

  /** Negates the vertical component of the velocity. */
  function ReflectVertical(b: Ball): (r: Ball)
    ensures r.velocity.height == -b.velocity.height
    ensures r.(velocity := b.velocity) == b && r.velocity.width == b.velocity.width
  {
    b.(velocity := b.velocity.(height := -b.velocity.height))
  }

  /** Index of the first brick the ball overlaps, or `|bricks|` when it overlaps none. */
  function FirstHit(b: Ball, bricks: seq<Block>): (k: nat)
    ensures k <= |bricks|
    ensures forall j | 0 <= j < k :: !HitsBlock(b, bricks[j])
    ensures k < |bricks| ==> HitsBlock(b, bricks[k])
  {
    if bricks == [] then 0
    else if HitsBlock(b, bricks[0]) then 0
    else
      var k := FirstHit(b, bricks[1..]);
      assert forall j | 1 <= j < k + 1 :: bricks[j] == bricks[1..][j - 1];
      1 + k
  }

  /**
   * `Ball::destroy_brick(bricks)`: when the ball overlaps some brick, the
   * first such brick is removed (the others keep their order) and the answer
   * is true; otherwise the bricks are left alone and the answer is false.
   */
  function DestroyBrick(b: Ball, bricks: seq<Block>): (r: (bool, seq<Block>))
    ensures r.0 <==> exists k | 0 <= k < |bricks| :: HitsBlock(b, bricks[k])
    ensures !r.0 ==> r.1 == bricks
    ensures r.0 ==> |r.1| + 1 == |bricks|
    ensures r.0 ==> var k := FirstHit(b, bricks);
                    && k < |bricks| && r.1 == bricks[..k] + bricks[k + 1..]
                    && multiset(r.1) + multiset{bricks[k]} == multiset(bricks)
  {
    var k := FirstHit(b, bricks);
    if k == |bricks| then (false, bricks)
    else
      assert bricks == bricks[..k] + [bricks[k]] + bricks[k + 1..];
      (true, bricks[..k] + bricks[k + 1..])
  }
}
