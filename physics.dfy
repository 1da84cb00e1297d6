/**
 * The server's ball and paddle arithmetic (the body of `GameRoom.updatePaddle`, `updateBall` and
 * `resetBall`) as functions on values.  The `GameRoom` class performs the same steps in place
 * and is proved to end in the state these functions compute.  Coordinates are exact reals.
 */
module Physics {
  import opened Common

  /** Board and piece dimensions the server hard-codes. */
  const BoardWidth: real := 800.0
  const BoardHeight: real := 400.0
  const PaddleTop: int := 300     // the largest paddle y: board height minus paddle height
  const PaddleStep: int := 7      // how far one accepted input moves a paddle
  const BallRadius: real := 8.0
  const BaseSpeed: real := 4.0
  const SpeedStep: real := 0.3    // speed gained on every paddle hit

  datatype Ball = Ball(x: real, y: real, dx: real, dy: real, radius: real, speed: real)

  /** A paddle; `lastUpdate` is the time stamp `updatePaddle` attaches, absent until the first input. */
  datatype Paddle = Paddle(x: int, y: int, width: int, height: int, lastUpdate: Option<int>)

  datatype Scores = Scores(player1: nat, player2: nat)

  /** The value `updateBall` returns on a scoring tick: `'player1_score'` or `'player2_score'`. */
  datatype ScoreEvent = Player1Scored | Player2Scored

  /** What one ball update produces: the new ball, the new scores and the score event, if any. */
  datatype Step = Step(ball: Ball, scores: Scores, event: Option<ScoreEvent>)

  /** The ball a new room starts with. */
  function InitialBall(): Ball
  {
    Ball(400.0, 200.0, 4.0, 4.0, BallRadius, BaseSpeed)
  }

  /** The paddle a new room gives to a slot: left at x = 20, right at x = 770, both at y = 150. */
  function InitialPaddle(slot: Slot): Paddle
  {
    Paddle(if slot == Player1 then 20 else 770, 150, 10, 100, None)
  }

  /** A paddle with the geometry of `slot` and a y inside the board. */
  predicate WellPlaced(p: Paddle, slot: Slot)
  {
    p.x == InitialPaddle(slot).x && p.width == 10 && p.height == 100 && 0 <= p.y <= PaddleTop
  }

  // ---------------------------------------------------------------------------------------
  // Paddles (server.js:95-106)

  /** The new y of a paddle at `y` after one input: `"up"` and `"down"` move it by 7 within [0, 300]. */
  function MovePaddle(y: int, direction: string): (r: int)
    ensures direction != "up" && direction != "down" ==> r == y
    ensures 0 <= y <= PaddleTop ==> 0 <= r <= PaddleTop
    ensures direction == "up" && y >= PaddleStep ==> r == y - PaddleStep
    ensures direction == "up" && y < PaddleStep ==> r == 0
    ensures direction == "down" && y + PaddleStep <= PaddleTop ==> r == y + PaddleStep
    ensures direction == "down" && y + PaddleStep > PaddleTop ==> r == PaddleTop
  {
    if direction == "up" then (if y - PaddleStep < 0 then 0 else y - PaddleStep)
    else if direction == "down" then (if y + PaddleStep > PaddleTop then PaddleTop else y + PaddleStep)
    else y
  }

  /** The y of a paddle after a run of inputs. */
  function MoveAll(y: int, directions: seq<string>): int
    decreases |directions|
  {
    if directions == [] then y else MoveAll(MovePaddle(y, directions[0]), directions[1..])
  }

  /** However long the run of inputs, a paddle that starts on the board stays on it. */
  lemma {:induction false} MoveAllStaysOnBoard(y: int, directions: seq<string>)
    requires 0 <= y <= PaddleTop
    ensures 0 <= MoveAll(y, directions) <= PaddleTop
    decreases |directions|
  {
    if directions != [] {
      MoveAllStaysOnBoard(MovePaddle(y, directions[0]), directions[1..]);
    }
  }

  // ---------------------------------------------------------------------------------------
  // The ball (server.js:118-183)

  /** The ball after it travels one step along its velocity. */
  function Moved(b: Ball): (r: Ball)
    ensures r.x - b.x == b.dx && r.y - b.y == b.dy
    ensures r.dx == b.dx && r.dy == b.dy && r.speed == b.speed && r.radius == b.radius
  {
    b.(x := b.x + b.dx, y := b.y + b.dy)
  }

  /** The ball's edge touches the top or the bottom of the board. */
  predicate TouchesWall(b: Ball)
  {
    b.y - b.radius <= 0.0 || b.y + b.radius >= BoardHeight
  }

  /** The wall bounce: `dy` is reversed exactly when the ball touches a wall; nothing else changes. */
  function WallBounce(b: Ball): (r: Ball)
    ensures r == b.(dy := r.dy)
    ensures TouchesWall(b) ==> r.dy == -b.dy
    ensures !TouchesWall(b) ==> r.dy == b.dy
  {
    if TouchesWall(b) then b.(dy := -b.dy) else b
  }

  /** The ball's vertical centre lies within the paddle's span. */
  predicate InSpan(b: Ball, p: Paddle)
  {
    p.y as real <= b.y <= (p.y + p.height) as real
  }

  /** The left paddle is hit: the ball's left edge is in the paddle's x band, and it moves left. */
  predicate HitsPaddle1(b: Ball, p: Paddle)
  {
    b.x - b.radius <= (p.x + p.width) as real && b.x - b.radius >= p.x as real &&
    InSpan(b, p) && b.dx < 0.0
  }

  /** The right paddle is hit: the ball's right edge is in the paddle's x band, and it moves right. */
  predicate HitsPaddle2(b: Ball, p: Paddle)
  {
    b.x + b.radius >= p.x as real && b.x + b.radius <= (p.x + p.width) as real &&
    InSpan(b, p) && b.dx > 0.0
  }

  /** Where the ball meets the paddle, from -1 (top end) through 0 (centre) to 1 (bottom end). */
  function HitOffset(b: Ball, p: Paddle): (r: real)
    requires p.height > 0
    ensures InSpan(b, p) ==> -1.0 <= r <= 1.0
    ensures r == 0.0 <==> b.y == p.y as real + p.height as real / 2.0
  {
    var half := p.height as real / 2.0;
    var r := (b.y - (p.y as real + half)) / half;
    assert r * half == b.y - (p.y as real + half);
    assert InSpan(b, p) ==> -half <= r * half <= half;
    r
  }

  /**
   * A paddle hit: the horizontal direction reverses, the speed grows by 0.3, `dx` becomes plus or
   * minus the new speed, and `dy` is set from where the ball met the paddle.
   */
  function Deflect(b: Ball, p: Paddle): (r: Ball)
    requires p.height > 0
    ensures r.x == b.x && r.y == b.y && r.radius == b.radius
    ensures r.speed == b.speed + SpeedStep
    ensures b.dx < 0.0 ==> r.dx == r.speed
    ensures b.dx > 0.0 ==> r.dx == -r.speed
    ensures r.dy == HitOffset(b, p) * r.speed * 0.5
  {
    var reversed := -b.dx;
    var speed := b.speed + SpeedStep;
    b.(dx := if reversed > 0.0 then speed else -speed, speed := speed,
       dy := HitOffset(b, p) * speed * 0.5)
  }

  /** A ball hit within the paddle's span leaves with a vertical speed of at most half its new speed. */
  lemma AngleBound(b: Ball, p: Paddle)
    requires p.height > 0 && InSpan(b, p) && b.speed >= 0.0
    ensures var r := Deflect(b, p); -r.speed / 2.0 <= r.dy <= r.speed / 2.0
  {
    var offset := HitOffset(b, p);
    var speed := b.speed + SpeedStep;
    assert -1.0 <= offset <= 1.0;
    assert Deflect(b, p).speed == speed && Deflect(b, p).dy == offset * speed * 0.5;
    if offset >= 0.0 {
      assert offset * speed <= 1.0 * speed;
    } else {
      assert (-offset) * speed <= 1.0 * speed;
    }
  }

  /** The left-paddle collision test and its effect. */
  function Paddle1Step(b: Ball, p: Paddle): Ball
    requires p.height > 0
  {
    if HitsPaddle1(b, p) then Deflect(b, p) else b
  }

  /** The right-paddle collision test and its effect. */
  function Paddle2Step(b: Ball, p: Paddle): Ball
    requires p.height > 0
  {
    if HitsPaddle2(b, p) then Deflect(b, p) else b
  }

  /** The ball `resetBall` serves: centred, at the base speed, along one of the four diagonals. */
  function Served(dxPositive: bool, dyPositive: bool): (r: Ball)
    ensures r.x == BoardWidth / 2.0 && r.y == BoardHeight / 2.0
    ensures r.speed == BaseSpeed && r.radius == BallRadius
    ensures r.dx == (if dxPositive then r.speed else -r.speed)
    ensures r.dy == (if dyPositive then r.speed else -r.speed)
  {
    Ball(400.0, 200.0, (if dxPositive then 1.0 else -1.0) * 4.0,
         (if dyPositive then 1.0 else -1.0) * 4.0, 8.0, 4.0)
  }

  /**
   * The scoring test: a ball past the left edge is a point for player 2, one past the right edge a
   * point for player 1; either way the ball is served again.  At most one score moves, by one.
   */
  function ScoreStep(b: Ball, scores: Scores, dxPositive: bool, dyPositive: bool): (r: Step)
    ensures r.scores.player1 >= scores.player1 && r.scores.player2 >= scores.player2
    ensures r.scores.player1 + r.scores.player2 <= scores.player1 + scores.player2 + 1
    ensures r.event == Some(Player2Scored) <==> b.x < 0.0
    ensures r.event == Some(Player1Scored) <==> 0.0 <= b.x && b.x > BoardWidth
    ensures r.event == Some(Player2Scored) ==> r.scores == scores.(player2 := scores.player2 + 1)
    ensures r.event == Some(Player1Scored) ==> r.scores == scores.(player1 := scores.player1 + 1)
    ensures r.event.Some? ==> r.ball == Served(dxPositive, dyPositive)
    ensures r.event.None? ==> r.ball == b && r.scores == scores
  {
    if b.x < 0.0 then
      Step(Served(dxPositive, dyPositive), scores.(player2 := scores.player2 + 1), Some(Player2Scored))
    else if b.x > BoardWidth then
      Step(Served(dxPositive, dyPositive), scores.(player1 := scores.player1 + 1), Some(Player1Scored))
    else
      Step(b, scores, None)
  }

  /** The ball just before the scoring test: moved, bounced off the walls, tested against both paddles. */
  function Deflected(b: Ball, p1: Paddle, p2: Paddle): Ball
    requires p1.height > 0 && p2.height > 0
  {
    Paddle2Step(Paddle1Step(WallBounce(Moved(b)), p1), p2)
  }

  /** One ball update of a running, unpaused room. */
  function Advance(b: Ball, p1: Paddle, p2: Paddle, scores: Scores, dxPositive: bool, dyPositive: bool): (r: Step)
    requires p1.height > 0 && p2.height > 0
    ensures r.scores.player1 >= scores.player1 && r.scores.player2 >= scores.player2
    ensures r.scores == scores || r.scores == scores.(player1 := scores.player1 + 1) ||
            r.scores == scores.(player2 := scores.player2 + 1)
    ensures r.event.Some? <==> r.scores != scores
  {
    ScoreStep(Deflected(b, p1, p2), scores, dxPositive, dyPositive)
  }

  /**
   * A left-paddle hit on a well-placed board: the speed grows by exactly 0.3, the ball leaves to
   * the right at the new speed, its vertical speed is at most half of it, and nobody scores.
   */
  lemma Paddle1Hit(b: Ball, p1: Paddle, p2: Paddle, scores: Scores, dxPositive: bool, dyPositive: bool)
    requires WellPlaced(p1, Player1) && WellPlaced(p2, Player2)
    requires b.radius == BallRadius && b.speed >= BaseSpeed
    requires HitsPaddle1(WallBounce(Moved(b)), p1)
    ensures var r := Advance(b, p1, p2, scores, dxPositive, dyPositive);
      && r.ball.speed == b.speed + SpeedStep
      && r.ball.dx == r.ball.speed
      && -r.ball.speed / 2.0 <= r.ball.dy <= r.ball.speed / 2.0
      && r.scores == scores && r.event == None
  {
    AngleBound(WallBounce(Moved(b)), p1);
  }

  /** The right-paddle hit mirrors the left one, with the ball leaving to the left. */
  lemma Paddle2Hit(b: Ball, p1: Paddle, p2: Paddle, scores: Scores, dxPositive: bool, dyPositive: bool)
    requires WellPlaced(p1, Player1) && WellPlaced(p2, Player2)
    requires b.radius == BallRadius && b.speed >= BaseSpeed
    requires HitsPaddle2(WallBounce(Moved(b)), p2)
    ensures var r := Advance(b, p1, p2, scores, dxPositive, dyPositive);
      && r.ball.speed == b.speed + SpeedStep
      && r.ball.dx == -r.ball.speed
      && -r.ball.speed / 2.0 <= r.ball.dy <= r.ball.speed / 2.0
      && r.scores == scores && r.event == None
  {
    AngleBound(WallBounce(Moved(b)), p2);
  }

  /** A ball update never lowers the speed, so the speed stays at or above the base speed. */
  lemma SpeedNeverDrops(b: Ball, p1: Paddle, p2: Paddle, scores: Scores, dxPositive: bool, dyPositive: bool)
    requires p1.height > 0 && p2.height > 0
    requires b.speed >= BaseSpeed
    ensures Advance(b, p1, p2, scores, dxPositive, dyPositive).ball.speed >= BaseSpeed
  {
  }

  /**
   * The hit of a ball arriving level with the centre of the left paddle: at (32, 200) moving left
   * at speed 4 against a paddle spanning y 150..250, it leaves to the right at 4.3, level.
   */
  lemma CentreHitScenario(p2: Paddle, scores: Scores, dxPositive: bool, dyPositive: bool)
    requires WellPlaced(p2, Player2)
    ensures var p1 := InitialPaddle(Player1);
      var r := Advance(Ball(32.0, 200.0, -4.0, 0.0, 8.0, 4.0), p1, p2, scores, dxPositive, dyPositive);
      r.ball == Ball(28.0, 200.0, 4.3, 0.0, 8.0, 4.3) && r.event == None
  {
  }

  /**
   * A ball at x = 5 moving left at speed 4 is already past the left paddle's band: it moves to
   * x = 1, its left edge (x - 8) is left of the paddle's x = 20, so no hit happens and, being
   * still at x >= 0, nobody scores either.
   */
  lemma NoHitPastPaddle(y: real, p2: Paddle, scores: Scores, dxPositive: bool, dyPositive: bool)
    requires WellPlaced(p2, Player2)
    requires BallRadius < y < BoardHeight - BallRadius
    ensures var r := Advance(Ball(5.0, y, -4.0, 0.0, 8.0, 4.0), InitialPaddle(Player1), p2, scores, dxPositive, dyPositive);
      r.ball == Ball(1.0, y, -4.0, 0.0, 8.0, 4.0) && r.event == None && r.scores == scores
  {
  }
}
