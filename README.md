# Brick-Out game model in Dafny

This project models the simulation core of Brick-Out, a breakout-style
arcade game. The core is the `Model` class of `src/model.cxx`. It owns a
paddle, a ball and a grid of bricks, and it changes them in three ways:

- `launch` sets the ball free;
- `paddle_to(x)` moves the paddle sideways, and a ball that is not yet
  live moves with it;
- `on_frame(dt)` advances a live ball. It first looks one step ahead
  (the *speculative* ball), takes the first branch of a fixed priority chain
  whose test holds (bottom miss, corner, top, side, paddle, brick), reflects
  the current ball accordingly, and commits one step of the reflected ball.

The constructor lays out `brick_rows * brick_cols` bricks in a grid.

## Layout of the project

- `geometry.dfy` (`Geometry`): points, extents and rectangles (`Block`), and
  open-interval overlap.
- `game_config.dfy` (`GameConfig`): the configuration values the model reads.
- `ball.dfy` (`Balls`): the ball and the collaborators the model calls on it.
  These are `Ball(paddle, config)`, `next`, `hits_bottom`, `hits_top`,
  `hits_side`, `hits_block`, `reflect_*` and `destroy_brick`.
- `random_source.dfy` (`Randomness`): the bounded random source used for the boost.
- `layout.dfy` (`BrickLayout`): the brick grid as a function, with lemmas
  about where each brick sits and why no two bricks overlap.
- `model_spec.dfy` (`ModelSpec`): the game state as a value (`World`) and
  each operation as a function on it. The frame's priority chain is the
  function `EventOf`.
- `model_properties.dfy` (`ModelProperties`): what those functions promise.
  This covers branch priority, the effect of each branch, the boost bound,
  idempotent launch, and the invariant that every operation keeps.
- `model.dfy` (`GameModel`): the class `Model`. Its fields are `paddle`,
  `ball` and `bricks`. Its constructor runs the nested brick loops, and its
  methods `Launch`, `PaddleTo` and `OnFrame` mirror the C++ member functions.
  Each method is proved to produce exactly the state its `ModelSpec`
  function gives.

The class invariant `Valid` holds after construction and after every
operation. It says that:

- the paddle keeps its configured row and size;
- the ball keeps its radius;
- a ball that is not live rests on the paddle: its horizontal centre is the
  paddle's and its bottom edge is the paddle's top edge;
- no two bricks still in play overlap.

`src/model.hxx` and the files that define `Ball`, `Block` and `Game_config`
are not part of this model. What the model assumes of them is described
under "Left out".

## Model

| member | source | states |
|---|---|---|
| `GameModel.Model.constructor` | src/model.cxx:40-79 | The paddle starts at `paddle_top_left_0()` with `paddle_dims`, and the ball is `Ball(paddle, config)`. The nested loops leave exactly `Layout(config)` in `bricks`: the outer loop keeps `bricks == Rows(config, i)`, the inner keeps `Rows(config, i) + Row(config, i, j)`. The invariant `Valid` holds afterwards. |
| `GameModel.Model.Launch` | src/model.cxx:82-86 | The new state is `Launched` of the old: the ball is live and nothing else changes. The invariant is kept. |
| `GameModel.Model.PaddleTo` | src/model.cxx:101-109 | The new state is `PaddleMoved` of the old. The invariant is kept. |
| `GameModel.Model.OnFrame` | src/model.cxx:115-164 | The new state is `Frame` of the old, where `boost` is the value drawn from the random source and lies in `[-max_boost, max_boost]`. The invariant is kept. |
| `ModelSpec.Initial` | src/model.cxx:40-45 | The paddle starts at `paddle_top_left_0()` with `paddle_dims`. The ball rests on it with the configured velocity, and there are `brick_rows * brick_cols` bricks. |
| `ModelSpec.EventOf` | src/model.cxx:126-159 | A frame is a miss exactly when the speculative ball hits the bottom. It takes no branch exactly when that ball hits no wall, not the paddle and no brick. A brick break happens only when some brick is hit. |
| `ModelSpec.Rebounded` | src/model.cxx:130-158 | A branch changes only the ball's velocity: the centre, radius and live flag stay the same. Each component keeps its magnitude or is negated. The exception is the brick branch, which adds exactly the boost to the horizontal component. A miss or no hit leaves the ball as it was. |
| `ModelSpec.Launched` | src/model.cxx:83-86 | The ball becomes live. Paddle and bricks are unchanged, and the ball is otherwise unchanged. |
| `ModelSpec.PaddleMoved` | src/model.cxx:102-109 | The paddle's x becomes `x` and its other fields are unchanged. A live ball is unchanged. A ball that was not live becomes `Ball(paddle, config)` on the moved paddle and tracks it. The bricks are never touched. |
| `ModelSpec.Frame` | src/model.cxx:116-163 | The paddle never changes, and a frame with a non-live ball changes nothing. The ball ends the frame live exactly when it was live and its speculative step does not hit the bottom. The bricks either stay the same or lose exactly one element. |
| `ModelProperties.InitialState` | src/model.cxx:40-79 | The initial paddle is `Block::from_top_left(paddle_top_left_0(), paddle_dims)` and the ball tracks it. There are `brick_rows * brick_cols` bricks, and the brick of cell (i, j) sits at index `i * brick_cols + j`. |
| `ModelProperties.InitialInv` | src/model.cxx:40-79 | For a valid configuration the initial state satisfies the invariant, including that no two bricks overlap. |
| `ModelProperties.LaunchIdempotent` | src/model.cxx:83-86 | Launching twice gives the same state as launching once. |
| `ModelProperties.LaunchKeepsInv` | src/model.cxx:83-86 | `launch` keeps the invariant. |
| `ModelProperties.PaddleMovedKeepsInv` | src/model.cxx:102-109 | `paddle_to` keeps the invariant. A non-live ball is re-made on the moved paddle. |
| `ModelProperties.EventPriority` | src/model.cxx:126-159 | Exactly one branch fires. Each branch fires exactly when its own test holds and no earlier test holds, in the order bottom, corner (top and side), top, side, paddle, brick. Both directions of each equivalence are proved. |
| `ModelProperties.ReboundEffects` | src/model.cxx:130-158 | Corner negates both velocity components. Top and paddle negate only the vertical one, and side negates only the horizontal one. Brick negates the vertical one and adds the boost to the horizontal one. No branch moves the ball or changes its radius or live flag. |
| `ModelProperties.FrameMiss` | src/model.cxx:120-128 | When the speculative ball hits the bottom, the ball becomes `Ball(paddle, config)` and is not live. Paddle and bricks are unchanged, and no step is committed. |
| `ModelProperties.FrameCommit` | src/model.cxx:161-162 | In every other branch the committed ball is `next(dt)` of the reflected current ball, not of the speculative one. It stays live, keeps its radius, and the paddle is unchanged. |
| `ModelProperties.FrameVelocity` | src/model.cxx:130-158 | Gives the velocity after a frame of a live ball that is not lost, stated directly in terms of the hit tests, for each of the six outcomes. |
| `ModelProperties.FrameOfRebound` | src/model.cxx:130-162 | A frame that is not a miss is the commit step of the rebounded ball, applied to the bricks the branch leaves. |
| `ModelProperties.FrameBricks` | src/model.cxx:155 | Bricks change only in the brick branch. There the removed brick is the first brick the speculative ball overlaps, the count drops by one, and the rest stay as they were. |
| `ModelProperties.BrickBoostBounded` | src/model.cxx:149-158 | When a brick breaks, the vertical velocity is negated. The new horizontal velocity minus the old lies in `[-max_boost, max_boost]`. |
| `ModelProperties.FrameKeepsInv` | src/model.cxx:116-163 | `on_frame` keeps the invariant. In particular, removing a brick leaves the remaining bricks pairwise non-overlapping. |
| `ModelProperties.RemoveKeepsDisjoint` | src/model.cxx:155 | Removing one brick from bricks that pairwise do not overlap leaves them pairwise non-overlapping. |
| `BrickLayout.BrickAt` | src/model.cxx:56-71 | Every brick has the configured brick size, and the brick of cell (0, 0) has its corner at the side and top margins. |
| `BrickLayout.Layout` | src/model.cxx:47-78 | The nested loops push `brick_rows * brick_cols` bricks. |
| `BrickLayout.Row` | src/model.cxx:53-76 | The inner loop pushes exactly `n` bricks for the first `n` columns. |
| `BrickLayout.Rows` | src/model.cxx:49-78 | The outer loop pushes exactly `n * brick_cols` bricks for the first `n` rows. |
| `BrickLayout.RowAt` | src/model.cxx:53-73 | Brick `j` of a row is the brick of column `j`. |
| `BrickLayout.RowsAt` | src/model.cxx:47-78 | After `n` rows, index `i * brick_cols + j` holds the brick of cell (i, j). |
| `BrickLayout.LayoutCell` | src/model.cxx:47-78 | Every cell (i, j) of the grid has its brick in the layout, at index `i * brick_cols + j`. |
| `BrickLayout.LayoutAt` | src/model.cxx:47-78 | Every brick of the layout is the brick of cell (k / brick_cols, k % brick_cols), and that row is within the grid. So there is one brick per cell, with no gaps or extras. |
| `BrickLayout.CellsDisjoint` | src/model.cxx:56-71 | With positive brick sizes and non-negative spacing, bricks of different cells do not overlap. |
| `BrickLayout.ColumnsApart` | src/model.cxx:56-63 | A brick in an earlier column ends before a brick in a later column begins. |
| `BrickLayout.RowsApart` | src/model.cxx:60-64 | A brick in an earlier row ends before a brick in a later row begins. |
| `BrickLayout.CellOfIndicesDisjoint` | src/model.cxx:56-71 | Two different indices name two different grid cells, and the bricks of those cells do not overlap. |
| `BrickLayout.IndicesDisjoint` | src/model.cxx:47-78 | The bricks at two different indices of the layout do not overlap. |
| `BrickLayout.LayoutDisjoint` | src/model.cxx:47-78 | No two bricks of the initial grid overlap. |
| `BrickLayout.ExampleLayout` | src/model.cxx:56-71 | Two rows and three columns, margins (10, 5), bricks of 20 by 5 and spacing 2 give six bricks. They sit at x = 10, 32, 54 and y = 5, 12. |
| `Balls.TrackingBall` | src/model.cxx:44 | `Ball(paddle, config)` is not live and tracks the paddle: horizontal centre over the paddle's, bottom edge on its top edge. It has the configured radius and initial velocity, and it does not overlap the paddle. |
| `Balls.Next` | src/model.cxx:120 | `next(dt)` keeps the live flag, the velocity and the radius; only the centre moves. |
| `Balls.HitsBottom` | src/model.cxx:126 | `hits_bottom`: the bottom edge of the ball's bounding square is below the playfield. |
| `Balls.HitsTop` | src/model.cxx:130-136 | `hits_top`: the top edge of the bounding square is above the playfield. |
| `Balls.HitsSide` | src/model.cxx:130-141 | `hits_side`: the left edge of the bounding square is left of the playfield, or its right edge is right of it. |
| `Balls.HitsBlock` | src/model.cxx:146 | `hits_block`: the block overlaps the ball's bounding square, tested with the block on either side. A hit needs the block's size plus the ball's diameter to be positive on both axes. |
| `Balls.ReflectHorizontal` | src/model.cxx:131-142 | `reflect_horizontal` negates the horizontal velocity and changes nothing else about the ball. |
| `Balls.ReflectVertical` | src/model.cxx:132-156 | `reflect_vertical` negates the vertical velocity and changes nothing else about the ball. |
| `Balls.FirstHit` | src/model.cxx:155 | The scan stops at the first brick the ball overlaps. All bricks before it are missed, and the length of `bricks` means none is hit. |
| `Balls.DestroyBrick` | src/model.cxx:155 | Returns true exactly when some brick overlaps the ball, and then removes exactly the first such brick. The others keep their order, and the multiset of bricks loses just that one. When it returns false the bricks are unchanged. |
| `Randomness.BoostSource.Next` | src/model.cxx:157 | A draw lies in the source's interval, which the model sets to `[-max_boost, max_boost]`. |

## Left out

- `Ball::next(double)` integration: the arithmetic is not part of this model.
  The model holds it as a function value `advance` of the centre, the
  velocity and `dt`. Nothing is assumed about floating-point rounding.
- The bodies of `hits_bottom`, `hits_top`, `hits_side` and `hits_block` are
  not part of this model. They are given simple integer definitions: an edge
  of the ball's bounding square crosses the playfield's edge, or the square
  overlaps the block with open intervals. No property of `Model` depends on
  these definitions.
- The resting position of `Ball(paddle, config)`: centre x at
  `paddle.x + paddle.width / 2`, bottom edge on the paddle's top edge.
  This is the documented tracking rule, not code that is part of this model.
- `destroy_brick`: its body is not part of this model. The model removes the
  first overlapping brick and keeps the remaining bricks in their order, which
  is a modelling choice. The order matters: `FirstHit` picks bricks by position,
  so when a later frame's ball overlaps more than one brick, the order decides
  which one that frame removes. A `destroy_brick` that reorders the vector would
  make later frames remove a different brick than this model does.
- The ball is a centre and radius, not a rectangle. Only its bounding square
  enters the collision tests.
- `paddle_top_left_0()` and `brick_dims()` are computed inside the
  configuration, which is not part of this model. They are plain configuration
  values here.
- Randomness: the generator behind `random_boost_source` and its seeding are
  not modelled. A draw is any integer in `[-max_boost, max_boost]`, and
  `OnFrame` reports it as a ghost out-parameter.
- `OnFrame` ends its bottom-miss branch by skipping the commit step
  (`if`/`else`) rather than with an early `return`. The resulting state is
  the same.
- `GameModel.Model.constructor` requires `config.Valid()`, so the model
  treats some configurations the C++ constructor accepts as programming errors
  and does not describe a `Model` built from them. These are:
  - a scene, ball, paddle or brick size that is zero or negative;
  - a negative brick spacing;
  - a negative `max_boost`, for which the random source's interval would be empty.
- Integer overflow: C++ `int` offsets and coordinates are modelled as
  unbounded integers, so the 32-bit wrap-around of very large configurations
  is not modelled.
- `brick_rows` and `brick_cols` are natural numbers. A negative count, for
  which the C++ loops run zero times, is not represented.
- Rendering, input polling and the game loop that calls `Model` are outside
  the model.
