/**
 * The game-state orchestrator: it owns the paddle, the ball and the bricks,
 * and changes them through `Launch`, `PaddleTo` and `OnFrame`.
 */
module GameModel {
  import opened Geometry
  import opened GameConfig
  import opened Balls
  import opened Randomness
  import opened BrickLayout
  import opened ModelSpec
  import opened ModelProperties

  class Model {
    /** The model's own copy of the configuration. */
    const config: Config
    /** The integration step `Ball::next` uses. */
    const advance: Integrator
    /** Draws the horizontal boost given when a brick breaks. */
    const randomBoostSource: BoostSource
    var paddle: Block
    var ball: Ball
    var bricks: seq<Block>

    /** The model's state as a value. */
    function State(): World
      reads this
    {
      World(paddle, ball, bricks)
    }

    ghost predicate Valid()
      reads this
    {
      && config.Valid()
      && randomBoostSource.Valid()
      && randomBoostSource.lo == -config.maxBoost && randomBoostSource.hi == config.maxBoost
      && Inv(config, State())
    }

    /**
     * Builds the paddle at its configured corner, a ball resting on it, and
     * the brick grid one row at a time.
     */
    constructor (config: Config, advance: Integrator)
      requires config.Valid()
      ensures Valid()
      ensures this.config == config && this.advance == advance
      ensures State() == Initial(config)
    {
      this.config := config;
      this.advance := advance;
      var paddle0 := FromTopLeft(config.paddleTopLeft0, config.paddleDims);
      paddle := paddle0;
      ball := TrackingBall(paddle0, config);
      randomBoostSource := new BoostSource(-config.maxBoost, config.maxBoost);
      bricks := [];
      new;
      var i := 0;
      while i < config.brickRows
        invariant 0 <= i <= config.brickRows
        invariant bricks == Rows(config, i)
        invariant paddle == paddle0 && ball == TrackingBall(paddle0, config)
      {
        var j := 0;
        while j < config.brickCols
          invariant 0 <= j <= config.brickCols
          invariant bricks == Rows(config, i) + Row(config, i, j)
          invariant paddle == paddle0 && ball == TrackingBall(paddle0, config)
        {
          var xOffset := config.brickSpacing.width + config.brickDims.width;
          var yOffset := config.brickSpacing.height + config.brickDims.height;
          var x := config.sideMargin + j * xOffset;
          var y := config.topMargin + i * yOffset;
          var brick := Block(x, y, config.brickDims.width, config.brickDims.height);
          bricks := bricks + [brick];
          j := j + 1;
        }
        i := i + 1;
      }
      InitialInv(config);
    }

    /** Sets the ball free; nothing else changes. */
    method Launch()
      requires Valid()
      modifies this
      ensures Valid()
      ensures State() == Launched(old(State()))
    {
      ball := ball.(live := true);
      LaunchKeepsInv(config, old(State()));
    }

    /** Moves the paddle to `x`; a ball that is not live is re-made on the moved paddle. */
    method PaddleTo(x: int)
      requires Valid()
      modifies this
      ensures Valid()
      ensures State() == PaddleMoved(config, old(State()), x)
    {
      paddle := paddle.(x := x);
      if !ball.live {
        ball := TrackingBall(paddle, config);
      }
      PaddleMovedKeepsInv(config, old(State()), x);
    }

    /**
     * Advances a live ball by `dt`: its collisions are decided one step ahead,
     * on a speculative copy. `boost` is the random boost drawn when a brick
     * breaks (unconstrained otherwise).
     */
    method OnFrame(dt: real) returns (ghost boost: int)
      requires Valid()
      modifies this
      ensures Valid()
      ensures -config.maxBoost <= boost <= config.maxBoost
      ensures State() == Frame(config, advance, old(State()), dt, boost)
    {
      boost := 0;
      ghost var w := State();
      if ball.live {
        var newBall := Next(ball, dt, advance);
        if HitsBottom(newBall, config) {
          // the ball is lost: a fresh one waits on the paddle, and the frame ends here
          ball := TrackingBall(paddle, config);
        } else {
          if HitsTop(newBall, config) && HitsSide(newBall, config) {
            ball := ReflectHorizontal(ball);
            ball := ReflectVertical(ball);
          } else if HitsTop(newBall, config) {
            ball := ReflectVertical(ball);
          } else if HitsSide(newBall, config) {
            ball := ReflectHorizontal(ball);
          } else if HitsBlock(newBall, paddle) {
            ball := ReflectVertical(ball);
          } else {
            var (destroyed, rest) := DestroyBrick(newBall, bricks);
            bricks := rest;
            if destroyed {
              ball := ReflectVertical(ball);
              var b := randomBoostSource.Next();
              boost := b;
              ball := ball.(velocity := ball.velocity.(width := b + ball.velocity.width));
            }
          }
          FrameOfRebound(config, advance, w, dt, boost, ball, bricks);
          ball := Next(ball, dt, advance);
        }
      }
      FrameKeepsInv(config, advance, w, dt, boost);
    }
  }
}
