/** The per-frame physics of a two-player Pong match, as values.
    Every operation here is a pure function from the state before to the
    state after; module Engine runs the same steps in place on objects and
    proves that it computes exactly these functions. */
module Pong {

  /** A canvas dimension. It is taken to be even, so that the centre
      (half of it) is a whole number, as every other quantity is. */
  type Dim = n: nat | n % 2 == 0

  const PaddleWidth: int := 10
  const PaddleHeight: int := 100
  const BallRadius: int := 10
  /** The ball's initial speed on each axis, in units per frame. */
  const ServeSpeed: int := 4
  /** The vertical speed a key press gives a paddle, in units per frame. */
  const MoveSpeed: int := 5

  const LeftKeys: set<string> := {"w", "s"}
  const RightKeys: set<string> := {"ArrowUp", "ArrowDown"}

  datatype Field = Field(width: Dim, height: Dim)

  datatype Paddle = Paddle(x: int, y: int, width: int, height: int, dy: int)

  datatype Ball = Ball(x: int, y: int, radius: int, dx: int, dy: int)

  datatype Game = Game(left: Paddle, right: Paddle, ball: Ball, leftScore: nat, rightScore: nat)

  /** The sound cues the physics raises, in the order it raises them. */
  datatype Event = LeftHit | RightHit | Scored

  /** A state together with the events raised while reaching it. */
  datatype Stepped = Stepped(game: Game, events: seq<Event>)

  function Abs(n: int): nat { if n < 0 then -n else n }

  function Min(a: int, b: int): int { if a <= b then a else b }

  function Max(a: int, b: int): int { if a <= b then b else a }

  /** How many times `e` occurs in `es`. */
  function Occurrences(es: seq<Event>, e: Event): nat { multiset(es)[e] }

  // ---------------------------------------------------------------------
  // Initial state

  /** The state the page starts in: paddles flush with the side edges and
      vertically centred, the ball at the centre heading down and right,
      both scores zero. */
  function Initial(f: Field): (g: Game)
    ensures g.leftScore == 0 && g.rightScore == 0
    ensures g.left.x == 0 && g.right.x + g.right.width == f.width
    ensures g.left.width == g.right.width == PaddleWidth
    ensures g.left.height == g.right.height == PaddleHeight
    ensures 2 * g.left.y + g.left.height == f.height && g.right.y == g.left.y
    ensures g.left.dy == 0 && g.right.dy == 0
    ensures 2 * g.ball.x == f.width && 2 * g.ball.y == f.height
    ensures g.ball.radius == BallRadius && g.ball.dx == ServeSpeed && g.ball.dy == ServeSpeed
    ensures f.height >= PaddleHeight ==>
              0 <= g.left.y && g.left.y + g.left.height <= f.height
  {
    Game(Paddle(0, f.height / 2 - PaddleHeight / 2, PaddleWidth, PaddleHeight, 0),
         Paddle(f.width - PaddleWidth, f.height / 2 - PaddleHeight / 2, PaddleWidth, PaddleHeight, 0),
         Ball(f.width / 2, f.height / 2, BallRadius, ServeSpeed, ServeSpeed),
         0, 0)
  }

  // ---------------------------------------------------------------------
  // Paddles

  /** A paddle lies inside a field of height `h`. */
  predicate PaddleInField(p: Paddle, h: int) { 0 <= p.y && p.y + p.height <= h }

  /** Moves a paddle by its velocity, then pushes it back inside the field:
      first onto the top edge if it went above it, then onto the bottom
      edge if it went below it. Its velocity is kept as it was. */
  function MovePaddle(p: Paddle, h: int): (q: Paddle)
    ensures q == p.(y := q.y)
    ensures p.height <= h ==> PaddleInField(q, h)
    ensures p.height <= h ==> q.y == Min(Max(p.y + p.dy, 0), h - p.height)
    ensures PaddleInField(p.(y := p.y + p.dy), h) ==> q.y == p.y + p.dy
    ensures p.height > h ==> q.y == h - p.height
  {
    var y := p.y + p.dy;
    var y' := if y < 0 then 0 else y;
    var y'' := if y' + p.height > h then h - p.height else y';
    p.(y := y'')
  }

  // ---------------------------------------------------------------------
  // The ball

  /** The ball moves one velocity step; nothing else about it changes. */
  function Advance(b: Ball): (c: Ball)
    ensures c == b.(x := c.x, y := c.y)
    ensures c.x - b.x == b.dx && c.y - b.y == b.dy
  {
    b.(x := b.x + b.dx, y := b.y + b.dy)
  }

  /** The ball's bottom edge is strictly below the field or its top edge
      strictly above it; an edge exactly on a wall does not cross it. */
  predicate CrossesWall(b: Ball, h: int) { b.y + b.radius > h || b.y - b.radius < 0 }

  /** The ball's left edge is left of the paddle's right edge, and its centre
      is strictly between the paddle's top and bottom. */
  predicate HitsLeft(b: Ball, p: Paddle) {
    b.x - b.radius < p.x + p.width && p.y < b.y < p.y + p.height
  }

  /** The ball's right edge is right of the paddle's left edge, and its
      centre is strictly between the paddle's top and bottom. */
  predicate HitsRight(b: Ball, p: Paddle) {
    b.x + b.radius > p.x && p.y < b.y < p.y + p.height
  }

  predicate PastLeft(b: Ball) { b.x - b.radius < 0 }

  predicate PastRight(b: Ball, w: int) { b.x + b.radius > w }

  /** Only the vertical direction can change, and it reverses exactly when
      the ball touches a wall; the ball is not moved back inside. */
  function BounceWalls(b: Ball, h: int): (c: Ball)
    ensures c == b.(dy := c.dy)
    ensures CrossesWall(b, h) ==> c.dy == -b.dy
    ensures !CrossesWall(b, h) ==> c == b
    ensures Abs(c.dy) == Abs(b.dy)
  {
    if CrossesWall(b, h) then b.(dy := -b.dy) else b
  }

  /** The serve after a point: the ball goes back to the centre of the field
      and is sent back the way it came; its vertical speed and size stay. */
  function ResetBall(b: Ball, f: Field): (c: Ball)
    ensures 2 * c.x == f.width && 2 * c.y == f.height
    ensures c.dx == -b.dx && c.dy == b.dy && c.radius == b.radius
  {
    b.(x := f.width / 2, y := f.height / 2, dx := -b.dx)
  }

  /** Only the ball's horizontal direction and the cues can change: when the
      ball hits the left paddle, `dx` reverses and `LeftHit` is added. */
  function LeftPaddleCheck(st: Stepped): (r: Stepped)
    ensures r.game == st.game.(ball := st.game.ball.(dx := r.game.ball.dx))
    ensures HitsLeft(st.game.ball, st.game.left) ==>
              r.game.ball.dx == -st.game.ball.dx && r.events == st.events + [LeftHit]
    ensures !HitsLeft(st.game.ball, st.game.left) ==> r == st
  {
    var b := st.game.ball;
    if HitsLeft(b, st.game.left)
    then Stepped(st.game.(ball := b.(dx := -b.dx)), st.events + [LeftHit])
    else st
  }

  /** Only the ball's horizontal direction and the cues can change: when the
      ball hits the right paddle, `dx` reverses and `RightHit` is added. */
  function RightPaddleCheck(st: Stepped): (r: Stepped)
    ensures r.game == st.game.(ball := st.game.ball.(dx := r.game.ball.dx))
    ensures HitsRight(st.game.ball, st.game.right) ==>
              r.game.ball.dx == -st.game.ball.dx && r.events == st.events + [RightHit]
    ensures !HitsRight(st.game.ball, st.game.right) ==> r == st
  {
    var b := st.game.ball;
    if HitsRight(b, st.game.right)
    then Stepped(st.game.(ball := b.(dx := -b.dx)), st.events + [RightHit])
    else st
  }

  /** Only the right score, the ball and the cues can change: when the ball
      is past the left edge, the right player gains exactly one point, a
      `Scored` cue is added and the ball is served again. */
  function LeftGoalCheck(st: Stepped, f: Field): (r: Stepped)
    ensures r.game.left == st.game.left && r.game.right == st.game.right
    ensures r.game.leftScore == st.game.leftScore
    ensures PastLeft(st.game.ball) ==>
              && r.game.rightScore == st.game.rightScore + 1
              && r.game.ball == ResetBall(st.game.ball, f) && r.events == st.events + [Scored]
    ensures !PastLeft(st.game.ball) ==> r == st
  {
    var g := st.game;
    if PastLeft(g.ball)
    then Stepped(g.(rightScore := g.rightScore + 1, ball := ResetBall(g.ball, f)), st.events + [Scored])
    else st
  }

  /** Only the left score, the ball and the cues can change: when the ball
      is past the right edge, the left player gains exactly one point, a
      `Scored` cue is added and the ball is served again. */
  function RightGoalCheck(st: Stepped, f: Field): (r: Stepped)
    ensures r.game.left == st.game.left && r.game.right == st.game.right
    ensures r.game.rightScore == st.game.rightScore
    ensures PastRight(st.game.ball, f.width) ==>
              && r.game.leftScore == st.game.leftScore + 1
              && r.game.ball == ResetBall(st.game.ball, f) && r.events == st.events + [Scored]
    ensures !PastRight(st.game.ball, f.width) ==> r == st
  {
    var g := st.game;
    if PastRight(g.ball, f.width)
    then Stepped(g.(leftScore := g.leftScore + 1, ball := ResetBall(g.ball, f)), st.events + [Scored])
    else st
  }

  /** One frame of ball motion: move, bounce off the top and bottom walls,
      test the left paddle, test the right paddle, then test the left goal
      and the right goal, in this order. Every test looks at where the ball
      is after the move and not at the way it is going, and every bounce and
      every serve reverses the horizontal direction once. */
  function MoveBall(g: Game, f: Field): (r: Stepped)
    ensures r.game.left == g.left && r.game.right == g.right
    ensures r.game.ball.radius == g.ball.radius
    // the wall rule, measured after the move
    ensures r.game.ball.dy == if CrossesWall(Advance(g.ball), f.height) then -g.ball.dy else g.ball.dy
  {
    var moved := g.(ball := BounceWalls(Advance(g.ball), f.height));
    RightGoalCheck(LeftGoalCheck(RightPaddleCheck(LeftPaddleCheck(Stepped(moved, []))), f), f)
  }

  /** The paddle tests look only at where the ball is after the move, never
      at the way it is going: a ball that stays in a paddle's band bounces
      and raises the cue again on every frame it is there. */
  lemma MoveBallHits(g: Game, f: Field)
    ensures var r := MoveBall(g, f);
      && (LeftHit in r.events <==> HitsLeft(Advance(g.ball), g.left))
      && (RightHit in r.events <==> HitsRight(Advance(g.ball), g.right))
      && Occurrences(r.events, LeftHit) <= 1 && Occurrences(r.events, RightHit) <= 1
  {
  }

  /** Each cue stands for exactly one reversal of the horizontal direction:
      a paddle bounce reverses it and so does the serve after a point. A
      ball caught by both paddles in one frame is reversed twice. */
  lemma MoveBallReversals(g: Game, f: Field)
    ensures var r := MoveBall(g, f);
      r.game.ball.dx == if |r.events| % 2 == 0 then g.ball.dx else -g.ball.dx
  {
  }

  /** The goal rules. The left goal is tested first; the right goal is then
      tested on the ball as the left goal left it, which after a point is
      the ball at the centre. */
  lemma MoveBallScores(g: Game, f: Field)
    ensures var r := MoveBall(g, f);
      && r.game.rightScore == g.rightScore + (if PastLeft(Advance(g.ball)) then 1 else 0)
      && r.game.leftScore == g.leftScore +
           (if (if PastLeft(Advance(g.ball)) then 2 * g.ball.radius > f.width
                else PastRight(Advance(g.ball), f.width)) then 1 else 0)
      && r.game.leftScore + r.game.rightScore
           == g.leftScore + g.rightScore + Occurrences(r.events, Scored)
  {
  }

  /** Where the ball ends the frame: at the centre after a point, one
      velocity step further otherwise. */
  lemma MoveBallPosition(g: Game, f: Field)
    ensures var r := MoveBall(g, f);
      && (Scored in r.events ==> 2 * r.game.ball.x == f.width && 2 * r.game.ball.y == f.height)
      && (Scored !in r.events ==> r.game.ball.x == g.ball.x + g.ball.dx && r.game.ball.y == g.ball.y + g.ball.dy)
  {
  }

  /** With a ball no wider than half the field, the serve after a point on
      the left cannot also count as a point on the right, so a frame scores
      at most once. */
  lemma AtMostOnePointPerFrame(g: Game, f: Field)
    requires 2 * g.ball.radius <= f.width
    ensures Occurrences(MoveBall(g, f).events, Scored) <= 1
  {
  }

  /** The wall bounce does not move the ball back inside the field. Even so,
      if a ball clear of both walls bounces in a frame that scores no point,
      the next frame does not reverse its vertical direction again. */
  lemma NoImmediateRebounce(g: Game, f: Field)
    requires g.ball.radius <= g.ball.y <= f.height - g.ball.radius
    requires MoveBall(g, f).game.ball.dy != g.ball.dy
    requires Scored !in MoveBall(g, f).events
    ensures var g' := MoveBall(g, f).game;
      MoveBall(g', f).game.ball.dy == g'.ball.dy
  {
  }

  /** A ball wider than half the field breaks that bound: the serve after a
      point on the left already pokes out on the right and scores again. */
  lemma TwoPointsWithAWideBall()
    ensures var f := Field(20, 40);
      var g := Game(Paddle(0, 0, 1, 1, 0), Paddle(19, 0, 1, 1, 0), Ball(8, 20, 11, -1, 0), 0, 0);
      var r := MoveBall(g, f);
      r.events == [Scored, Scored] && r.game.leftScore == 1 && r.game.rightScore == 1
  {
  }

  // ---------------------------------------------------------------------
  // A frame

  /** The update part of one frame: left paddle, right paddle, then ball. */
  function Tick(g: Game, f: Field): (r: Stepped)
    ensures r.game.left == g.left.(y := r.game.left.y)
    ensures r.game.right == g.right.(y := r.game.right.y)
    ensures g.left.height <= f.height ==> PaddleInField(r.game.left, f.height)
    ensures g.right.height <= f.height ==> PaddleInField(r.game.right, f.height)
    ensures r.game.ball.radius == g.ball.radius
    ensures Abs(r.game.ball.dx) == Abs(g.ball.dx) && Abs(r.game.ball.dy) == Abs(g.ball.dy)
    ensures g.leftScore <= r.game.leftScore && g.rightScore <= r.game.rightScore
    ensures r.game.leftScore + r.game.rightScore
              == g.leftScore + g.rightScore + Occurrences(r.events, Scored)
    ensures 2 * g.ball.radius <= f.width ==>
              r.game.leftScore + r.game.rightScore <= g.leftScore + g.rightScore + 1
  {
    MoveBall(g.(left := MovePaddle(g.left, f.height), right := MovePaddle(g.right, f.height)), f)
  }

  /** The paddle tests of a frame use the paddles where this frame has
      already moved them, not where they were before it. */
  lemma TickTestsMovedPaddles(g: Game, f: Field)
    ensures var r := Tick(g, f);
      && (LeftHit in r.events <==> HitsLeft(Advance(g.ball), MovePaddle(g.left, f.height)))
      && (RightHit in r.events <==> HitsRight(Advance(g.ball), MovePaddle(g.right, f.height)))
  {
    MoveBallHits(g.(left := MovePaddle(g.left, f.height), right := MovePaddle(g.right, f.height)), f);
  }

  // ---------------------------------------------------------------------
  // Keyboard

  /** A key going down: "w" and "s" set the left paddle moving up and down,
      the two vertical arrow keys do the same for the right paddle. */
  function KeyDown(g: Game, key: string): (r: Game)
    ensures r == g.(left := g.left.(dy := r.left.dy), right := g.right.(dy := r.right.dy))
    ensures key == "w" ==> r.left.dy == -MoveSpeed
    ensures key == "s" ==> r.left.dy == MoveSpeed
    ensures key == "ArrowUp" ==> r.right.dy == -MoveSpeed
    ensures key == "ArrowDown" ==> r.right.dy == MoveSpeed
    ensures key !in LeftKeys ==> r.left == g.left
    ensures key !in RightKeys ==> r.right == g.right
  {
    var l := if key == "w" then g.left.(dy := -MoveSpeed) else g.left;
    var l' := if key == "s" then l.(dy := MoveSpeed) else l;
    var rp := if key == "ArrowUp" then g.right.(dy := -MoveSpeed) else g.right;
    var rp' := if key == "ArrowDown" then rp.(dy := MoveSpeed) else rp;
    g.(left := l', right := rp')
  }

  /** A key going up: releasing either key of a pair stops that paddle. */
  function KeyUp(g: Game, key: string): (r: Game)
    ensures r == g.(left := g.left.(dy := r.left.dy), right := g.right.(dy := r.right.dy))
    ensures r.left.dy == if key in LeftKeys then 0 else g.left.dy
    ensures r.right.dy == if key in RightKeys then 0 else g.right.dy
  {
    var l := if key == "w" || key == "s" then g.left.(dy := 0) else g.left;
    var rp := if key == "ArrowUp" || key == "ArrowDown" then g.right.(dy := 0) else g.right;
    g.(left := l, right := rp)
  }
}
