/**
 * What the transitions of `ModelSpec` promise: the priority of the frame's
 * branches, the effect of each, the invariant every transition keeps, and
 * that bricks still in play never overlap.
 */
module ModelProperties {
  import opened Geometry
  import opened GameConfig
  import opened Balls
  import opened BrickLayout
  import opened ModelSpec

  /** The initial state: paddle at its configured corner and size, ball resting on it, full grid. */
  lemma InitialState(cfg: Config)
    ensures var w := Initial(cfg);
      && w.paddle == Block(cfg.paddleTopLeft0.x, cfg.paddleTopLeft0.y, cfg.paddleDims.width, cfg.paddleDims.height)
      && Tracks(w.ball, w.paddle) && w.ball == TrackingBall(w.paddle, cfg)
      && |w.bricks| == cfg.brickRows * cfg.brickCols
      && forall i, j | 0 <= i < cfg.brickRows && 0 <= j < cfg.brickCols ::
           i * cfg.brickCols + j < |w.bricks| && w.bricks[i * cfg.brickCols + j] == BrickAt(cfg, i, j)
  {
    var bricks := Initial(cfg).bricks;
    assert bricks == Layout(cfg);
    forall i, j | 0 <= i < cfg.brickRows && 0 <= j < cfg.brickCols
      ensures i * cfg.brickCols + j < |bricks| && bricks[i * cfg.brickCols + j] == BrickAt(cfg, i, j)
    {
      LayoutCell(cfg, i, j);
    }
  }

  lemma InitialInv(cfg: Config)
    requires cfg.Valid()
    ensures Inv(cfg, Initial(cfg))
  {
    LayoutDisjoint(cfg);
  }

  /** Launching twice is launching once. */
  lemma LaunchIdempotent(w: World)
    ensures Launched(Launched(w)) == Launched(w)
  {
  }

  lemma LaunchKeepsInv(cfg: Config, w: World)
    requires Inv(cfg, w)
    ensures Inv(cfg, Launched(w))
  {
  }

  lemma PaddleMovedKeepsInv(cfg: Config, w: World, x: int)
    requires Inv(cfg, w)
    ensures Inv(cfg, PaddleMoved(cfg, w, x))
  {
  }

  /**
   * Exactly one branch is taken per frame, and it is the first in the order
   * bottom, corner, top, side, paddle, brick whose test holds.
   */
  lemma EventPriority(cfg: Config, paddle: Block, bricks: seq<Block>, next: Ball)
    ensures var e := EventOf(cfg, paddle, bricks, next);
      var bottom, top, side := HitsBottom(next, cfg), HitsTop(next, cfg), HitsSide(next, cfg);
      var pad := HitsBlock(next, paddle);
      var brick := exists k | 0 <= k < |bricks| :: HitsBlock(next, bricks[k]);
      && (e == Miss <==> bottom)
      && (e == Corner <==> !bottom && top && side)
      && (e == TopWall <==> !bottom && top && !side)
      && (e == SideWall <==> !bottom && !top && side)
      && (e == PaddleBounce <==> !bottom && !top && !side && pad)
      && (e == BrickBreak <==> !bottom && !top && !side && !pad && brick)
      && (e == Clear <==> !bottom && !top && !side && !pad && !brick)
  {
  }

  /** What each branch does to the current ball: which velocity components it negates, and the boost. */
  lemma ReboundEffects(e: Event, b: Ball, boost: int)
    ensures var r := Rebounded(e, b, boost);
      var v, v' := b.velocity, r.velocity;
      && r.center == b.center && r.radius == b.radius && r.live == b.live
      && (e == Corner ==> v' == Dims(-v.width, -v.height))
      && (e == TopWall || e == PaddleBounce ==> v' == Dims(v.width, -v.height))
      && (e == SideWall ==> v' == Dims(-v.width, v.height))
      && (e == BrickBreak ==> v' == Dims(v.width + boost, -v.height))
      && (e == Miss || e == Clear ==> v' == v)
  {
  }

  /** A frame whose speculative ball falls out of the bottom puts a fresh ball on the paddle and touches nothing else. */
  lemma FrameMiss(cfg: Config, advance: Integrator, w: World, dt: real, boost: int)
    requires w.ball.live && HitsBottom(Next(w.ball, dt, advance), cfg)
    ensures var r := Frame(cfg, advance, w, dt, boost);
      && r.ball == TrackingBall(w.paddle, cfg) && !r.ball.live
      && r.paddle == w.paddle && r.bricks == w.bricks
  {
  }

  /**
   * Any other frame of a live ball commits one step of the rebounded current
   * ball (not of the speculative one); the ball stays live.
   */
  lemma FrameCommit(cfg: Config, advance: Integrator, w: World, dt: real, boost: int)
    requires w.ball.live && !HitsBottom(Next(w.ball, dt, advance), cfg)
    ensures var next := Next(w.ball, dt, advance);
      var e := EventOf(cfg, w.paddle, w.bricks, next);
      var r := Frame(cfg, advance, w, dt, boost);
      && r.ball == Next(Rebounded(e, w.ball, boost), dt, advance)
      && r.ball.live && r.ball.radius == w.ball.radius
      && r.ball.center == advance(w.ball.center, r.ball.velocity, dt)
      && r.paddle == w.paddle
  {
  }

  /**
   * The velocity a live, not lost ball leaves a frame with, branch by branch:
   * corner negates both components, top and paddle the vertical one, side the
   * horizontal one, a broken brick the vertical one plus the boost.
   */
  lemma FrameVelocity(cfg: Config, advance: Integrator, w: World, dt: real, boost: int)
    requires w.ball.live && !HitsBottom(Next(w.ball, dt, advance), cfg)
    ensures var next := Next(w.ball, dt, advance);
      var top, side, pad := HitsTop(next, cfg), HitsSide(next, cfg), HitsBlock(next, w.paddle);
      var brick := exists k | 0 <= k < |w.bricks| :: HitsBlock(next, w.bricks[k]);
      var v, v' := w.ball.velocity, Frame(cfg, advance, w, dt, boost).ball.velocity;
      && (top && side ==> v' == Dims(-v.width, -v.height))
      && (top && !side ==> v' == Dims(v.width, -v.height))
      && (!top && side ==> v' == Dims(-v.width, v.height))
      && (!top && !side && pad ==> v' == Dims(v.width, -v.height))
      && (!top && !side && !pad && brick ==> v' == Dims(v.width + boost, -v.height))
      && (!top && !side && !pad && !brick ==> v' == v)
  {
    var next := Next(w.ball, dt, advance);
    EventPriority(cfg, w.paddle, w.bricks, next);
    ReboundEffects(EventOf(cfg, w.paddle, w.bricks, next), w.ball, boost);
    FrameCommit(cfg, advance, w, dt, boost);
  }

  /** A frame of a live ball that is not lost is the commit step of the rebounded ball, with the bricks the branch leaves. */
  lemma FrameOfRebound(cfg: Config, advance: Integrator, w: World, dt: real, boost: int, rebounded: Ball, bricks: seq<Block>)
    requires w.ball.live && !HitsBottom(Next(w.ball, dt, advance), cfg)
    requires var e := EventOf(cfg, w.paddle, w.bricks, Next(w.ball, dt, advance));
      && rebounded == Rebounded(e, w.ball, boost)
      && bricks == if e == BrickBreak then DestroyBrick(Next(w.ball, dt, advance), w.bricks).1 else w.bricks
    ensures Frame(cfg, advance, w, dt, boost) == World(w.paddle, Next(rebounded, dt, advance), bricks)
  {
  }

  /** A frame changes the bricks only by breaking one, and then it is the first brick the speculative ball overlaps. */
  lemma FrameBricks(cfg: Config, advance: Integrator, w: World, dt: real, boost: int)
    ensures var next := Next(w.ball, dt, advance);
      var r := Frame(cfg, advance, w, dt, boost);
      var broke := w.ball.live && EventOf(cfg, w.paddle, w.bricks, next) == BrickBreak;
      && (!broke ==> r.bricks == w.bricks)
      && (broke ==> var k := FirstHit(next, w.bricks);
            && k < |w.bricks| && HitsBlock(next, w.bricks[k])
            && |r.bricks| + 1 == |w.bricks|
            && multiset(r.bricks) + multiset{w.bricks[k]} == multiset(w.bricks))
  {
  }

  /**
   * When a brick breaks, the vertical velocity is reflected and the horizontal
   * one changes by no more than the boost bound.
   */
  lemma BrickBoostBounded(cfg: Config, advance: Integrator, w: World, dt: real, boost: int)
    requires -cfg.maxBoost <= boost <= cfg.maxBoost
    requires w.ball.live && EventOf(cfg, w.paddle, w.bricks, Next(w.ball, dt, advance)) == BrickBreak
    ensures var r := Frame(cfg, advance, w, dt, boost);
      && r.ball.velocity.height == -w.ball.velocity.height
      && -cfg.maxBoost <= r.ball.velocity.width - w.ball.velocity.width <= cfg.maxBoost
  {
  }

  lemma FrameKeepsInv(cfg: Config, advance: Integrator, w: World, dt: real, boost: int)
    requires Inv(cfg, w)
    ensures Inv(cfg, Frame(cfg, advance, w, dt, boost))
  {
    var next := Next(w.ball, dt, advance);
    if w.ball.live && EventOf(cfg, w.paddle, w.bricks, next) == BrickBreak {
      RemoveKeepsDisjoint(w.bricks, FirstHit(next, w.bricks));
    }
  }

  /** Taking one brick out of a sequence of non-overlapping bricks leaves them non-overlapping. */
  lemma RemoveKeepsDisjoint(bricks: seq<Block>, k: nat)
    requires k < |bricks| && Disjoint(bricks)
    ensures Disjoint(bricks[..k] + bricks[k + 1..])
  {
    var rest := bricks[..k] + bricks[k + 1..];
    forall a, b | 0 <= a < b < |rest|
      ensures !Overlaps(rest[a], rest[b])
    {
      var a', b' := if a < k then a else a + 1, if b < k then b else b + 1;
      assert rest[a] == bricks[a'] && rest[b] == bricks[b'];
    }
  }
}
