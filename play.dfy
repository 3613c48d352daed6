/** A whole match as the page drives it: any interleaving of key presses,
    key releases and animation frames, applied to the state in turn. */
module Play {
  import opened Pong

  datatype Input = Press(key: string) | Release(key: string) | Frame

  /** One input: a key handler, or the update part of the game loop. */
  function Apply(g: Game, f: Field, i: Input): Stepped {
    match i
    case Press(k) => Stepped(KeyDown(g, k), [])
    case Release(k) => Stepped(KeyUp(g, k), [])
    case Frame => Tick(g, f)
  }

  /** All inputs in order, with every cue the frames raised. */
  function Run(g: Game, f: Field, inputs: seq<Input>): Stepped
    decreases |inputs|
  {
    if inputs == [] then Stepped(g, [])
    else
      var first := Apply(g, f, inputs[0]);
      var rest := Run(first.game, f, inputs[1..]);
      Stepped(rest.game, first.events + rest.events)
  }

  /** What holds of the page's state between any two inputs: the paddles
      keep their sizes and sides and lie inside the field, each paddle is
      still, or moving at the key speed, and the ball keeps its size and its
      speed on both axes. */
  predicate Playable(g: Game, f: Field) {
    && g.left.x == 0 && g.right.x == f.width - PaddleWidth
    && g.left.width == PaddleWidth && g.right.width == PaddleWidth
    && g.left.height == PaddleHeight && g.right.height == PaddleHeight
    && PaddleInField(g.left, f.height) && PaddleInField(g.right, f.height)
    && g.left.dy in {-MoveSpeed, 0, MoveSpeed} && g.right.dy in {-MoveSpeed, 0, MoveSpeed}
    && g.ball.radius == BallRadius
    && Abs(g.ball.dx) == ServeSpeed && Abs(g.ball.dy) == ServeSpeed
  }

  /** The page starts in a playable state whenever the canvas is at least
      as tall as a paddle. */
  lemma InitialIsPlayable(f: Field)
    requires f.height >= PaddleHeight
    ensures Playable(Initial(f), f)
  {
  }

  /** Every input keeps the state playable, never lowers a score, and raises
      the two scores together by the number of Scored cues it raises. */
  lemma ApplyKeepsPlayable(g: Game, f: Field, i: Input)
    requires Playable(g, f)
    ensures var r := Apply(g, f, i);
      && Playable(r.game, f)
      && g.leftScore <= r.game.leftScore && g.rightScore <= r.game.rightScore
      && r.game.leftScore + r.game.rightScore == g.leftScore + g.rightScore + Occurrences(r.events, Scored)
  {
  }

  /** Over any sequence of inputs the state stays playable, neither score
      ever goes down, and the scores rise by exactly one per Scored cue. */
  lemma {:induction false} RunKeepsPlayable(g: Game, f: Field, inputs: seq<Input>)
    requires Playable(g, f)
    ensures var r := Run(g, f, inputs);
      && Playable(r.game, f)
      && g.leftScore <= r.game.leftScore && g.rightScore <= r.game.rightScore
      && r.game.leftScore + r.game.rightScore == g.leftScore + g.rightScore + Occurrences(r.events, Scored)
    decreases |inputs|
  {
    if inputs != [] {
      var first := Apply(g, f, inputs[0]);
      ApplyKeepsPlayable(g, f, inputs[0]);
      RunKeepsPlayable(first.game, f, inputs[1..]);
      var rest := Run(first.game, f, inputs[1..]);
      assert multiset(first.events + rest.events) == multiset(first.events) + multiset(rest.events);
    }
  }

  /** On a field at least twice as wide as the ball, points are earned one
      frame at a time: no sequence of inputs gives more points than it has
      frames. */
  lemma {:induction false} PointsAtMostFrames(g: Game, f: Field, inputs: seq<Input>)
    requires Playable(g, f) && 2 * BallRadius <= f.width
    ensures var r := Run(g, f, inputs);
      r.game.leftScore + r.game.rightScore <= g.leftScore + g.rightScore + Frames(inputs)
    decreases |inputs|
  {
    if inputs != [] {
      var first := Apply(g, f, inputs[0]);
      ApplyKeepsPlayable(g, f, inputs[0]);
      PointsAtMostFrames(first.game, f, inputs[1..]);
    }
  }

  function Frames(inputs: seq<Input>): nat
    decreases |inputs|
  {
    if inputs == [] then 0 else (if inputs[0].Frame? then 1 else 0) + Frames(inputs[1..])
  }
}
