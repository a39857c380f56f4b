/**
 * The game state as a value and the transitions `Model` performs on it.
 * The class `GameModel.Model` is proved to follow these functions step by step.
 */
module ModelSpec {
  import opened Geometry
  import opened GameConfig
  import opened Balls
  import opened BrickLayout

  /** Everything a `Model` changes: the paddle, the ball and the remaining bricks. */
  datatype World = World(paddle: Block, ball: Ball, bricks: seq<Block>)

  /**
   * The branches of a frame's update, in the order they are tried: the first
   * whose test the speculative ball passes is the one taken.
   */
  datatype Event = Miss | Corner | TopWall | SideWall | PaddleBounce | BrickBreak | Clear

  /** The paddle and ball a model starts with, and the full brick grid. */
  function Initial(cfg: Config): (r: World)
    ensures r.paddle.x == cfg.paddleTopLeft0.x && r.paddle.y == cfg.paddleTopLeft0.y
    ensures r.paddle.width == cfg.paddleDims.width && r.paddle.height == cfg.paddleDims.height
    ensures Tracks(r.ball, r.paddle) && r.ball.velocity == cfg.ballVelocity0
    ensures |r.bricks| == cfg.brickRows * cfg.brickCols
  {
    var paddle := FromTopLeft(cfg.paddleTopLeft0, cfg.paddleDims);
    World(paddle, TrackingBall(paddle, cfg), Layout(cfg))
  }

  /** `launch`: the ball flies free. */
  function Launched(w: World): (r: World)
    ensures r.ball.live
    ensures r.paddle == w.paddle && r.bricks == w.bricks
    ensures r.ball.(live := w.ball.live) == w.ball
  {
    w.(ball := w.ball.(live := true))
  }

  /** `paddle_to(x)`: the paddle moves sideways; a ball still waiting moves with it. */
  function PaddleMoved(cfg: Config, w: World, x: int): (r: World)
    ensures r.paddle.x == x && r.paddle.(x := w.paddle.x) == w.paddle
    ensures r.bricks == w.bricks
    ensures w.ball.live ==> r.ball == w.ball
    ensures !w.ball.live ==> Tracks(r.ball, r.paddle) && r.ball == TrackingBall(r.paddle, cfg)
  {
    var paddle := w.paddle.(x := x);
    World(paddle, if w.ball.live then w.ball else TrackingBall(paddle, cfg), w.bricks)
  }

  /** The branch a frame takes, given the ball's speculative next position `next`. */
  function EventOf(cfg: Config, paddle: Block, bricks: seq<Block>, next: Ball): (e: Event)
    ensures e == Miss <==> HitsBottom(next, cfg)
    ensures e == Clear <==>
      && !HitsBottom(next, cfg) && !HitsTop(next, cfg) && !HitsSide(next, cfg)
      && !HitsBlock(next, paddle)
      && forall k | 0 <= k < |bricks| :: !HitsBlock(next, bricks[k])
    ensures e == BrickBreak ==> exists k | 0 <= k < |bricks| :: HitsBlock(next, bricks[k])
  {
    if HitsBottom(next, cfg) then Miss
    else if HitsTop(next, cfg) && HitsSide(next, cfg) then Corner
    else if HitsTop(next, cfg) then TopWall
    else if HitsSide(next, cfg) then SideWall
    else if HitsBlock(next, paddle) then PaddleBounce
    else if DestroyBrick(next, bricks).0 then BrickBreak
    else Clear
  }

  /** The current ball after the branch's reflection (and boost), before the frame's step. */
  function Rebounded(e: Event, b: Ball, boost: int): (r: Ball)
    ensures r.center == b.center && r.radius == b.radius && r.live == b.live
    ensures e == Miss || e == Clear ==> r == b
    ensures r.velocity.height == b.velocity.height || r.velocity.height == -b.velocity.height
    ensures e != BrickBreak ==> r.velocity.width == b.velocity.width || r.velocity.width == -b.velocity.width
    ensures e == BrickBreak ==> r.velocity.width - b.velocity.width == boost
  {
    match e
    case Corner => ReflectVertical(ReflectHorizontal(b))
    case TopWall => ReflectVertical(b)
    case SideWall => ReflectHorizontal(b)
    case PaddleBounce => ReflectVertical(b)
    case BrickBreak =>
      var r := ReflectVertical(b);
      r.(velocity := r.velocity.(width := boost + r.velocity.width))
    case _ => b
  }

  /**
   * `on_frame(dt)` with `boost` the value the random source yields if a brick
   * breaks. A live ball is tried one step ahead; a miss puts a fresh ball back
   * on the paddle, any other branch commits one step of the rebounded ball.
   */
  function Frame(cfg: Config, advance: Integrator, w: World, dt: real, boost: int): (r: World)
    ensures r.paddle == w.paddle
    ensures !w.ball.live ==> r == w
    ensures r.ball.live <==> w.ball.live && !HitsBottom(Next(w.ball, dt, advance), cfg)
    ensures r.bricks == w.bricks || (|r.bricks| + 1 == |w.bricks| && multiset(r.bricks) < multiset(w.bricks))
  {
    if !w.ball.live then w
    else
      var next := Next(w.ball, dt, advance);
      var e := EventOf(cfg, w.paddle, w.bricks, next);
      if e == Miss then w.(ball := TrackingBall(w.paddle, cfg))
      else
        var bricks := if e == BrickBreak then DestroyBrick(next, w.bricks).1 else w.bricks;
        World(w.paddle, Next(Rebounded(e, w.ball, boost), dt, advance), bricks)
  }

  /**
   * What every reachable state satisfies: the paddle keeps its row and size,
   * the ball keeps its radius, a ball that is not live rests on the paddle,
   * and no two bricks still in play overlap.
   */
  ghost predicate Inv(cfg: Config, w: World)
  {
    && w.paddle.y == cfg.paddleTopLeft0.y
    && w.paddle.width == cfg.paddleDims.width
    && w.paddle.height == cfg.paddleDims.height
    && w.ball.radius == cfg.ballRadius
    && (!w.ball.live ==> w.ball == TrackingBall(w.paddle, cfg))
    && Disjoint(w.bricks)
  }
}
