/** The match as the page runs it: paddle and ball objects whose fields are
    updated in place, and two score counters. Every method is proved to
    compute the function of module Pong that describes its step. */
module Engine {
  import Pong

  class Paddle {
    var x: int
    var y: int
    var width: int
    var height: int
    var dy: int

    constructor (x: int, y: int, width: int, height: int, dy: int)
      ensures Value() == Pong.Paddle(x, y, width, height, dy)
    {
      this.x, this.y, this.width, this.height, this.dy := x, y, width, height, dy;
    }

    function Value(): Pong.Paddle
      reads this
    {
      Pong.Paddle(x, y, width, height, dy)
    }
  }

  class Ball {
    var x: int
    var y: int
    var radius: int
    var dx: int
    var dy: int

    constructor (x: int, y: int, radius: int, dx: int, dy: int)
      ensures Value() == Pong.Ball(x, y, radius, dx, dy)
    {
      this.x, this.y, this.radius, this.dx, this.dy := x, y, radius, dx, dy;
    }

    function Value(): Pong.Ball
      reads this
    {
      Pong.Ball(x, y, radius, dx, dy)
    }
  }

  class Match {
    const field: Pong.Field
    const left: Paddle
    const right: Paddle
    const ball: Ball
    var leftScore: nat
    var rightScore: nat

    /** The two paddles are separate objects, so moving one leaves the
        other where it is. */
    ghost predicate Valid()
      reads this
    {
      left != right
    }

    function State(): Pong.Game
      reads this, left, right, ball
    {
      Pong.Game(left.Value(), right.Value(), ball.Value(), leftScore, rightScore)
    }

    constructor (width: Pong.Dim, height: Pong.Dim)
      ensures Valid() && fresh(left) && fresh(right) && fresh(ball)
      ensures field == Pong.Field(width, height)
      ensures State() == Pong.Initial(field)
    {
      field := Pong.Field(width, height);
      left := new Paddle(0, height / 2 - Pong.PaddleHeight / 2, Pong.PaddleWidth, Pong.PaddleHeight, 0);
      right := new Paddle(width - Pong.PaddleWidth, height / 2 - Pong.PaddleHeight / 2,
                          Pong.PaddleWidth, Pong.PaddleHeight, 0);
      ball := new Ball(width / 2, height / 2, Pong.BallRadius, Pong.ServeSpeed, Pong.ServeSpeed);
      leftScore, rightScore := 0, 0;
    }

    method MovePaddle(p: Paddle)
      modifies p
      ensures p.Value() == Pong.MovePaddle(old(p.Value()), field.height)
    {
      p.y := p.y + p.dy;
      if p.y < 0 {
        p.y := 0;
      }
      if p.y + p.height > field.height {
        p.y := field.height - p.height;
      }
    }

    method ResetBall()
      modifies ball
      ensures ball.Value() == Pong.ResetBall(old(ball.Value()), field)
    {
      ball.x := field.width / 2;
      ball.y := field.height / 2;
      ball.dx := -ball.dx;
    }

    /** The ball's part of a frame; the cues it raises are returned in the
        order they were raised. */
    method MoveBall() returns (events: seq<Pong.Event>)
      modifies this, ball
      ensures Pong.Stepped(State(), events) == Pong.MoveBall(old(State()), field)
    {
      ghost var g := State();
      ball.x := ball.x + ball.dx;
      ball.y := ball.y + ball.dy;
      if ball.y + ball.radius > field.height || ball.y - ball.radius < 0 {
        ball.dy := -ball.dy;
      }
      ghost var moved := Pong.Stepped(State(), []);
      assert moved == Pong.Stepped(g.(ball := Pong.BounceWalls(Pong.Advance(g.ball), field.height)), []);
      events := LeftPaddleCheck([]);
      ghost var s1 := Pong.Stepped(State(), events);
      events := RightPaddleCheck(events);
      ghost var s2 := Pong.Stepped(State(), events);
      events := LeftGoalCheck(events);
      ghost var s3 := Pong.Stepped(State(), events);
      events := RightGoalCheck(events);
      assert s1 == Pong.LeftPaddleCheck(moved);
      assert s2 == Pong.RightPaddleCheck(s1);
      assert s3 == Pong.LeftGoalCheck(s2, field);
      assert Pong.Stepped(State(), events) == Pong.RightGoalCheck(s3, field);
    }

    method LeftPaddleCheck(before: seq<Pong.Event>) returns (events: seq<Pong.Event>)
      modifies ball
      ensures Pong.Stepped(State(), events) == Pong.LeftPaddleCheck(Pong.Stepped(old(State()), before))
    {
      events := before;
      if ball.x - ball.radius < left.x + left.width && ball.y > left.y && ball.y < left.y + left.height {
        ball.dx := -ball.dx;
        events := events + [Pong.LeftHit];
      }
    }

    method RightPaddleCheck(before: seq<Pong.Event>) returns (events: seq<Pong.Event>)
      modifies ball
      ensures Pong.Stepped(State(), events) == Pong.RightPaddleCheck(Pong.Stepped(old(State()), before))
    {
      events := before;
      if ball.x + ball.radius > right.x && ball.y > right.y && ball.y < right.y + right.height {
        ball.dx := -ball.dx;
        events := events + [Pong.RightHit];
      }
    }

    method LeftGoalCheck(before: seq<Pong.Event>) returns (events: seq<Pong.Event>)
      modifies this, ball
      ensures Pong.Stepped(State(), events) == Pong.LeftGoalCheck(Pong.Stepped(old(State()), before), field)
    {
      events := before;
      if ball.x - ball.radius < 0 {
        rightScore := rightScore + 1;
        events := events + [Pong.Scored];
        ResetBall();
      }
    }

    method RightGoalCheck(before: seq<Pong.Event>) returns (events: seq<Pong.Event>)
      modifies this, ball
      ensures Pong.Stepped(State(), events) == Pong.RightGoalCheck(Pong.Stepped(old(State()), before), field)
    {
      events := before;
      if ball.x + ball.radius > field.width {
        leftScore := leftScore + 1;
        events := events + [Pong.Scored];
        ResetBall();
      }
    }

    /** The update part of one frame. */
    method Tick() returns (events: seq<Pong.Event>)
      requires Valid()
      modifies this, left, right, ball
      ensures Pong.Stepped(State(), events) == Pong.Tick(old(State()), field)
    {
      MovePaddle(left);
      MovePaddle(right);
      events := MoveBall();
    }

    method KeyDown(key: string)
      requires Valid()
      modifies left, right
      ensures State() == Pong.KeyDown(old(State()), key)
    {
      if key == "w" { left.dy := -Pong.MoveSpeed; }
      if key == "s" { left.dy := Pong.MoveSpeed; }
      if key == "ArrowUp" { right.dy := -Pong.MoveSpeed; }
      if key == "ArrowDown" { right.dy := Pong.MoveSpeed; }
    }

    method KeyUp(key: string)
      requires Valid()
      modifies left, right
      ensures State() == Pong.KeyUp(old(State()), key)
    {
      if key == "w" || key == "s" { left.dy := 0; }
      if key == "ArrowUp" || key == "ArrowDown" { right.dy := 0; }
    }
  }
}
