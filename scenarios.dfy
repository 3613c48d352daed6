/** One or two frames on an 800 by 400 canvas, worked out in full. */
module Scenarios {
  import opened Pong

  const Canvas: Field := Field(800, 400)

  /** The start position with the ball replaced. */
  function WithBall(b: Ball): Game { Initial(Canvas).(ball := b) }

  /** A ball heading down whose bottom edge passes the bottom wall turns
      upward; the next frame it is back above the wall and does not turn
      again. */
  lemma BottomWallScenario()
    ensures var r := Tick(WithBall(Ball(588, 388, 10, 4, 4)), Canvas);
      && r.game.ball == Ball(592, 392, 10, 4, -4) && r.events == []
      && Tick(r.game, Canvas).game.ball == Ball(596, 388, 10, 4, -4)
  {
  }

  /** A ball whose left edge starts level with the left paddle's face and
      moves into it is turned back, with one LeftHit cue. */
  lemma LeftPaddleScenario()
    ensures var g := WithBall(Ball(20, 200, 10, -4, 4));
      var r := Tick(g, Canvas);
      && g.left.y == 150 && g.left.y + g.left.height == 250
      && r.game.ball.dx == 4 && r.events == [LeftHit]
  {
  }

  /** The test on the paddle's face is strict: a ball whose left edge ends
      exactly on the paddle's right edge is not turned. */
  lemma PaddleFaceScenario()
    ensures var r := Tick(WithBall(Ball(24, 200, 10, -4, 4)), Canvas);
      r.game.ball.dx == -4 && r.events == []
  {
  }

  /** The paddle's band is open: a ball whose centre ends exactly level with
      the paddle's top edge goes through. */
  lemma PaddleEdgeScenario()
    ensures var r := Tick(WithBall(Ball(20, 146, 10, -4, 4)), Canvas);
      r.game.ball.dx == -4 && LeftHit !in r.events
  {
  }

  /** A ball that leaves on the left gives the right player a point and is
      served from the centre back toward the right. */
  lemma LeftGoalScenario()
    ensures var r := Tick(WithBall(Ball(12, 50, 10, -4, 4)), Canvas);
      && r.game.rightScore == 1 && r.game.leftScore == 0
      && r.game.ball == Ball(400, 200, 10, 4, 4) && r.events == [Scored]
  {
  }

  /** A ball in a playable state (speed 4 on both axes) that stays in front
      of the left paddle is turned on both frames, raising LeftHit each
      time, whatever its direction. */
  lemma LingeringBallScenario()
    ensures var r := Tick(WithBall(Ball(16, 150, 10, -4, 4)), Canvas);
      var r' := Tick(r.game, Canvas);
      && r.events == [LeftHit] && r.game.ball.dx == 4
      && r'.events == [LeftHit] && r'.game.ball.dx == -4
  {
  }
}
