# Pong: the per-frame update, modelled and proved in Dafny

The program is a browser Pong game with two paddles, one ball and two score
counters. Each animation frame moves the left paddle, then the right paddle,
then the ball. Keyboard handlers set the paddles' vertical velocities.

This project models that update in two layers:

- `pong.dfy`, module `Pong`: the state as values (`Paddle`, `Ball`, `Game`,
  `Field`). Each step is a pure function: `Initial`, `MovePaddle`,
  `ResetBall`, `MoveBall`, `Tick`, `KeyDown` and `KeyUp`. `MoveBall` is
  built from the source's checks in the source's order: move, wall bounce,
  left paddle, right paddle, left goal, right goal. The sound cues become
  `Event`s (`LeftHit`, `RightHit`, `Scored`), returned in the order they fire.
- `engine.dfy`, module `Engine`: the game as the page runs it. Paddle and
  ball objects are updated in place, and `Match` holds the scores. Every
  method is proved to compute exactly the matching `Pong` function on the
  abstract state `State()`. Of the five checks the source writes inline in
  `moveBall`, the wall bounce stays inline in `Match.MoveBall`, and the two
  paddle tests and the two goal tests are written as four methods. This
  keeps each proof small and does not change the order or the effect.
- `play.dfy`, module `Play`: any interleaving of key presses, key releases
  and frames. It proves by induction that the state stays playable and that
  scores only rise, by exactly one per `Scored` cue.
- `scenarios.dfy`, module `Scenarios`: one or two frames on an 800 by 400
  canvas, worked out in full.

The canvas size comes from the page's HTML, which is not part of this model,
so it is a parameter. It is an even number (`Pong.Dim`), so the centre
`width / 2`, `height / 2` is exact.

Two behaviours of the code worth knowing:

- The clamp at pong/script.js:81-82 keeps a paddle inside the field only if
  the paddle is no taller than the field. The bottom test runs last, so a
  taller paddle ends each frame at `height - paddle.height`, which is
  negative (`Pong.MovePaddle`).
- The two goal tests at pong/script.js:111-121 run one after the other, and
  the second sees the ball the first may have served. A frame is guaranteed
  to score at most once when the ball is no wider than half the field
  (`2 * radius <= width`, `Pong.AtMostOnePointPerFrame`). With a wider ball,
  the serve after a left goal also counts as a right goal in the same frame
  (`Pong.TwoPointsWithAWideBall`).

## Model

| member | source | states |
|---|---|---|
| `Pong.Initial` | pong/script.js:14-44 | The paddles start flush with the left and right edges and vertically centred. The ball starts at the centre with speed 4 on both axes. Both scores are 0. Both paddles are inside a field at least 100 tall. |
| `Pong.MovePaddle` | pong/script.js:78-83 | Only `y` changes; `dy` is not zeroed by clamping. If the paddle fits, the new `y` is `y + dy` clamped to `[0, h - height]`. It is exactly `y + dy` when that is already in range. A paddle taller than the field ends at `h - height`. |
| `Pong.ResetBall` | pong/script.js:125-129 | The ball goes to the centre, its horizontal direction reverses, and its vertical speed and radius stay. |
| `Pong.Advance` | pong/script.js:87-88 | The ball moves by exactly `dx`, `dy`; its radius and velocity stay. |
| `Pong.BounceWalls` | pong/script.js:91-93 | Only `dy` can change. It is negated when the ball's edge crosses the top or bottom wall (strictly: an edge exactly on the wall does not count) and kept otherwise, so the magnitude of `dy` is kept; the position is not corrected. |
| `Pong.LeftPaddleCheck` | pong/script.js:96-101 | Only the ball's `dx` and the cues can change. On a left-paddle hit `dx` is negated and `LeftHit` is appended; otherwise nothing changes. Its effect inside a whole frame is stated by `Pong.MoveBallHits`. |
| `Pong.RightPaddleCheck` | pong/script.js:103-108 | Only the ball's `dx` and the cues can change. On a right-paddle hit `dx` is negated and `RightHit` is appended; otherwise nothing changes. See also `Pong.MoveBallHits`. |
| `Pong.LeftGoalCheck` | pong/script.js:111-115 | Paddles and `leftScore` stay. When the ball's left edge is past 0, `rightScore` rises by exactly 1, `Scored` is appended and the ball is served by `ResetBall`; otherwise nothing changes. See also `Pong.MoveBallScores`. |
| `Pong.RightGoalCheck` | pong/script.js:117-121 | Paddles and `rightScore` stay. When the ball's right edge is past `width`, `leftScore` rises by exactly 1, `Scored` is appended and the ball is served; otherwise nothing changes. See also `Pong.MoveBallScores`. |
| `Pong.MoveBall` | pong/script.js:86-93 | The ball step leaves both paddles and the radius alone. It negates `dy` exactly when, after the move, the ball's bottom edge is below `h` or its top edge above 0; otherwise `dy` is unchanged. |
| `Pong.MoveBallHits` | pong/script.js:95-108 | `LeftHit` fires iff, after the move, `x - r < left.x + left.width` and `left.y < y < left.y + left.height`, strict at both edges. `RightHit` is the same with `x + r > right.x`. The direction of travel plays no part. Each cue fires at most once per frame. |
| `Pong.MoveBallReversals` | pong/script.js:96-128 | `dx` is negated once per cue raised: each paddle bounce and each serve. So it is unchanged when both paddles bounce the ball and no point is scored, and its magnitude is always kept. |
| `Pong.MoveBallScores` | pong/script.js:110-121 | `rightScore` rises by 1 iff the ball's left edge is past 0 after the move. `leftScore` rises by 1 iff the ball's right edge is past `width`, where the ball tested is the served ball after a left goal. The total rise equals the number of `Scored` cues. |
| `Pong.MoveBallPosition` | pong/script.js:86-128 | After a point, the ball is at the centre. Otherwise it is one velocity step from where it was. |
| `Pong.AtMostOnePointPerFrame` | pong/script.js:111-127 | With `2 * r <= width`, a frame raises at most one `Scored` cue. |
| `Pong.TwoPointsWithAWideBall` | pong/script.js:111-127 | With a ball wider than half the field, one frame raises two `Scored` cues and both scores rise. |
| `Pong.NoImmediateRebounce` | pong/script.js:87-93 | The bounce does not correct the position. Still, if a ball clear of both walls bounces in a frame that scores no point, the next frame does not negate `dy` again. |
| `Pong.Tick` | pong/script.js:200-202 | A frame changes only `y` of each paddle. Each paddle that fits lies inside the field. The ball's radius and the magnitudes of `dx` and `dy` are kept. Neither score falls. The scores rise by the number of `Scored` cues, and by at most 1 when `2 * r <= width`. |
| `Pong.TickTestsMovedPaddles` | pong/script.js:200-202 | The paddle tests of a frame use the paddles as already moved in that frame: `LeftHit` fires iff the moved ball hits `MovePaddle` of the left paddle, and likewise on the right. |
| `Pong.KeyDown` | pong/script.js:156-164 | Only the paddles' `dy` can change. `w`/`s` set the left `dy` to -5/5, and the arrow keys do the same for the right. A paddle keeps its state unless the key is one of its own pair, so other keys change nothing. |
| `Pong.KeyUp` | pong/script.js:166-172 | Only the paddles' `dy` can change. Either key of a pair sets that paddle's `dy` to 0, and every other key leaves it alone. |
| `Engine.Match.constructor` | pong/script.js:14-44 | A new match holds two distinct fresh paddles and a fresh ball, and its state is `Pong.Initial` of its field. |
| `Engine.Match.MovePaddle` | pong/script.js:78-83 | Updating a paddle object in place gives `Pong.MovePaddle` of its old value. |
| `Engine.Match.ResetBall` | pong/script.js:125-129 | Updating the ball object in place gives `Pong.ResetBall` of its old value. |
| `Engine.Match.MoveBall` | pong/script.js:86-122 | The in-place ball step returns the cues and leaves the state given by `Pong.MoveBall`. |
| `Engine.Match.LeftPaddleCheck` | pong/script.js:96-101 | The in-place left-paddle test equals `Pong.LeftPaddleCheck`. |
| `Engine.Match.RightPaddleCheck` | pong/script.js:103-108 | The in-place right-paddle test equals `Pong.RightPaddleCheck`. |
| `Engine.Match.LeftGoalCheck` | pong/script.js:111-115 | The in-place left-goal test equals `Pong.LeftGoalCheck`. |
| `Engine.Match.RightGoalCheck` | pong/script.js:117-121 | The in-place right-goal test equals `Pong.RightGoalCheck`. |
| `Engine.Match.Tick` | pong/script.js:196-202 | One frame's update on the objects returns the cues and leaves the state given by `Pong.Tick`. |
| `Engine.Match.KeyDown` | pong/script.js:156-164 | The keydown handler on the objects equals `Pong.KeyDown`. |
| `Engine.Match.KeyUp` | pong/script.js:166-172 | The keyup handler on the objects equals `Pong.KeyUp`. |
| `Play.InitialIsPlayable` | pong/script.js:14-44 | On a canvas at least 100 tall, the start state is playable. Playable means: paddles inside the field with their sizes and sides, `dy` in {-5, 0, 5}, ball radius 10, and speed 4 on both axes. |
| `Play.ApplyKeepsPlayable` | pong/script.js:156-202 | A key press, a key release or a frame keeps the state playable and never lowers a score. The score rise is the number of `Scored` cues. |
| `Play.RunKeepsPlayable` | pong/script.js:156-213 | Over any sequence of inputs, the state stays playable and neither score falls. The total rise equals the number of `Scored` cues raised. |
| `Play.PointsAtMostFrames` | pong/script.js:110-121 | On a field at least 20 wide, no input sequence earns more points than it has frames. |
| `Scenarios.BottomWallScenario` | pong/script.js:87-93 | On an 800 by 400 canvas, a ball that reaches y 392 heading down turns upward, and on the next frame it does not turn again. |
| `Scenarios.LeftPaddleScenario` | pong/script.js:96-101 | A ball moving into the left paddle's face, inside the band (150, 250), is turned to dx 4 with exactly one `LeftHit`. |
| `Scenarios.PaddleFaceScenario` | pong/script.js:96 | A ball whose left edge ends exactly on the left paddle's right edge (`x - r == 10`) is not turned and raises no cue. |
| `Scenarios.PaddleEdgeScenario` | pong/script.js:97-98 | A ball whose centre ends level with the paddle's top edge passes without a bounce. |
| `Scenarios.LeftGoalScenario` | pong/script.js:111-129 | A ball leaving on the left makes `rightScore` 1, comes back to (400, 200) with `dx` reversed, and raises one `Scored`. |
| `Scenarios.LingeringBallScenario` | pong/script.js:96-101 | A ball moving at speed 4 on both axes that stays in front of the left paddle is turned and raises `LeftHit` on two frames in a row. |

## Left out

- Drawing (`drawPaddle`, `drawBall`, `drawScore`, `drawTitle`, `clearRect`): calls to the browser's 2D canvas, with no effect on the state.
- Audio (`new Audio`, `play`, `currentTime`, `load`, the promise error handlers): browser calls. Only the cue each `play...Sound` call stands for is kept, as an `Event`.
- The sound toggle, the test-sound button and the `audioInitialized` flag: page UI state that the physics never reads. Every cue the physics raises is returned whether or not sound is on.
- `requestAnimationFrame` scheduling and the registration of the listeners: one `Tick` is one call of the update part of `gameLoop`, and `Play.Run` takes any order of inputs.
- The canvas element and its size: the size comes from HTML that is not part of this model. It is a parameter, taken as even.
- JavaScript numbers are doubles. Every quantity here is a whole number far below 2^53, so positions are unbounded `int`. The non-integral positions that an odd canvas size gives at pong/script.js:21, 36-37 and 126-127 (such as y = 150.5) are not modelled.
- Keys that are held down, auto-repeat, and the host's key-event order: each key event is one input, and the caller chooses the order.
