/**
 * The browser client's own game (script.js:20-215, 303-309): the `Paddle` and `Ball` objects, the
 * keyboard and CPU rules that set the paddles' velocities, the collision and scoring check, and the
 * pause toggle.  The canvas size, the key state and the coin flips of `Math.random` are parameters.
 */
module Client {
  import opened Common

  datatype GameMode = Pvc | Pvp | Online

  // ---------------------------------------------------------------------------------------
  // Specifications on values

  /** Where `Paddle.update` leaves a paddle of height `height` that moved to `v`. */
  function Clamp(v: real, height: real, canvasHeight: real): (r: real)
    ensures height <= canvasHeight ==> 0.0 <= r <= canvasHeight - height
    ensures 0.0 <= v && v + height <= canvasHeight ==> r == v
    ensures height > canvasHeight ==> r == canvasHeight - height
  {
    var y := if v < 0.0 then 0.0 else v;
    if y + height > canvasHeight then canvasHeight - height else y
  }

  /** A key that is held down; one never pressed is absent from the dictionary. */
  predicate Pressed(keys: map<string, bool>, key: string)
  {
    key in keys && keys[key]
  }

  /** The velocity two keys give a paddle of speed `speed`: the "up" key wins over the "down" key. */
  function KeyVelocity(up: bool, down: bool, speed: real): (v: real)
    ensures up ==> v == -speed
    ensures !up && down ==> v == speed
    ensures !up && !down ==> v == 0.0
  {
    if up then -speed else if down then speed else 0.0
  }

  /** The CPU paddle's velocity when the ball is `diff` below its centre: chase at 0.7 of its speed, rest within 10. */
  function CpuVelocity(diff: real, speed: real): (v: real)
    ensures diff > 10.0 ==> v == speed * 0.7
    ensures diff < -10.0 ==> v == -(speed * 0.7)
    ensures -10.0 <= diff <= 10.0 ==> v == 0.0
    ensures speed > 0.0 ==> (v > 0.0 <==> diff > 10.0) && (v < 0.0 <==> diff < -10.0)
  {
    var magnitude := if diff < 0.0 then -diff else diff;
    if magnitude > 10.0 then (if diff > 0.0 then speed * 0.7 else -speed * 0.7) else 0.0
  }

  /** The moving parts of a ball. */
  datatype BallState = BallState(x: real, y: real, dx: real, dy: real, speed: real, lastHit: Option<Slot>)

  /** A paddle's rectangle at the moment of a collision test. */
  datatype Box = Box(x: real, y: real, width: real, height: real)

  /** `increaseSpeed`: the speed rises by 0.5 and `dx` becomes the new speed, in `dx`'s direction (a `dx` of 0 counts as leftward). */
  function Sped(b: BallState): (r: BallState)
    ensures r == b.(speed := r.speed, dx := r.dx)
    ensures r.speed == b.speed + 0.5
    ensures b.dx > 0.0 ==> r.dx == r.speed
    ensures b.dx <= 0.0 ==> r.dx == -r.speed
  {
    var speed := b.speed + 0.5;
    var direction := if b.dx > 0.0 then 1.0 else -1.0;
    b.(speed := speed, dx := direction * speed)
  }

  /** The left paddle is hit: the ball's left edge is in its x band, its centre in its span, and it moves left. */
  predicate HitsLeft(b: BallState, radius: real, p: Box)
  {
    b.x - radius <= p.x + p.width && b.x - radius >= p.x &&
    b.y >= p.y && b.y <= p.y + p.height && b.dx < 0.0
  }

  /** The right paddle is hit: the ball's right edge is in its x band, its centre in its span, and it moves right. */
  predicate HitsRight(b: BallState, radius: real, p: Box)
  {
    b.x + radius >= p.x && b.x + radius <= p.x + p.width &&
    b.y >= p.y && b.y <= p.y + p.height && b.dx > 0.0
  }

  /** Where the ball meets the paddle, relative to its centre, in half-heights. */
  function HitPos(b: BallState, p: Box): (r: real)
    requires p.height > 0.0
    ensures p.y <= b.y <= p.y + p.height ==> -1.0 <= r <= 1.0
  {
    var half := p.height / 2.0;
    var r := (b.y - (p.y + p.height / 2.0)) / half;
    assert r * half == b.y - (p.y + half);
    r
  }

  /**
   * A paddle hit by player `who`: `dx` reverses, the speed rises by 0.5 with `dx` following it,
   * `lastHit` records the player, and `dy` is set from where the ball met the paddle.
   */
  function Bounce(b: BallState, p: Box, who: Slot): (r: BallState)
    requires p.height > 0.0
    ensures r.x == b.x && r.y == b.y
    ensures r.speed == b.speed + 0.5 && r.lastHit == Some(who)
    ensures b.dx < 0.0 && b.speed >= 0.0 ==> r.dx == r.speed && r.dx > 0.0
    ensures b.dx > 0.0 && b.speed >= 0.0 ==> r.dx == -r.speed && r.dx < 0.0
    ensures r.dy == HitPos(b, p) * r.speed * 0.5
  {
    var sped := Sped(b.(dx := -b.dx));
    sped.(lastHit := Some(who), dy := HitPos(sped, p) * sped.speed * 0.5)
  }

  /** The left-paddle test of `checkCollisions` and its effect. */
  function LeftStep(b: BallState, radius: real, p: Box): BallState
    requires p.height > 0.0
  {
    if HitsLeft(b, radius, p) then Bounce(b, p, Player1) else b
  }

  /** The right-paddle test of `checkCollisions` and its effect. */
  function RightStep(b: BallState, radius: real, p: Box): BallState
    requires p.height > 0.0
  {
    if HitsRight(b, radius, p) then Bounce(b, p, Player2) else b
  }

  /** `Ball.reset`: centred on the canvas at the base speed along a diagonal, with no last hitter. */
  function Served(canvasWidth: real, canvasHeight: real, baseSpeed: real, dxPositive: bool, dyPositive: bool): (r: BallState)
    ensures r.x == canvasWidth / 2.0 && r.y == canvasHeight / 2.0 && r.speed == baseSpeed
    ensures r.dx == (if dxPositive then baseSpeed else -baseSpeed)
    ensures r.dy == (if dyPositive then baseSpeed else -baseSpeed)
    ensures r.lastHit == None
  {
    BallState(canvasWidth / 2.0, canvasHeight / 2.0, (if dxPositive then 1.0 else -1.0) * baseSpeed,
              (if dyPositive then 1.0 else -1.0) * baseSpeed, baseSpeed, None)
  }

  /** The ball and both scores after `checkCollisions`. */
  datatype Outcome = Outcome(ball: BallState, player1Score: nat, player2Score: nat)

  /**
   * The scoring test of `checkCollisions`: past the left edge is a point for player 2, past the
   * right edge a point for player 1, never both, and either way the ball is served again.
   */
  function Scored(b: BallState, canvasWidth: real, canvasHeight: real, baseSpeed: real,
                  score1: nat, score2: nat, dxPositive: bool, dyPositive: bool): (r: Outcome)
    ensures b.x < 0.0 ==> r.player2Score == score2 + 1 && r.player1Score == score1
    ensures b.x > canvasWidth && b.x >= 0.0 ==> r.player1Score == score1 + 1 && r.player2Score == score2
    ensures 0.0 <= b.x <= canvasWidth ==> r == Outcome(b, score1, score2)
    ensures r.player1Score + r.player2Score <= score1 + score2 + 1
    ensures (b.x < 0.0 || b.x > canvasWidth) ==> r.ball == Served(canvasWidth, canvasHeight, baseSpeed, dxPositive, dyPositive)
  {
    if b.x < 0.0 then Outcome(Served(canvasWidth, canvasHeight, baseSpeed, dxPositive, dyPositive), score1, score2 + 1)
    else if b.x > canvasWidth then Outcome(Served(canvasWidth, canvasHeight, baseSpeed, dxPositive, dyPositive), score1 + 1, score2)
    else Outcome(b, score1, score2)
  }

  /** The whole of `checkCollisions`: left paddle, right paddle, then scoring. */
  function Collide(b: BallState, radius: real, p1: Box, p2: Box, canvasWidth: real, canvasHeight: real,
                   baseSpeed: real, score1: nat, score2: nat, dxPositive: bool, dyPositive: bool): Outcome
    requires p1.height > 0.0 && p2.height > 0.0
  {
    Scored(RightStep(LeftStep(b, radius, p1), radius, p2), canvasWidth, canvasHeight, baseSpeed,
           score1, score2, dxPositive, dyPositive)
  }

  /** A `checkCollisions` call never lowers the speed below the base speed, which the serve restores. */
  lemma CollideKeepsSpeed(b: BallState, radius: real, p1: Box, p2: Box, canvasWidth: real, canvasHeight: real,
                          baseSpeed: real, score1: nat, score2: nat, dxPositive: bool, dyPositive: bool)
    requires p1.height > 0.0 && p2.height > 0.0 && b.speed >= baseSpeed
    ensures Collide(b, radius, p1, p2, canvasWidth, canvasHeight, baseSpeed, score1, score2, dxPositive, dyPositive).ball.speed >= baseSpeed
  {
  }

  // ---------------------------------------------------------------------------------------
  // The objects

  class Paddle {
    const x: real
    var y: real
    const width: real
    const height: real
    const speed: real
    var dy: real

    constructor (x: real, y: real, width: real, height: real)
      ensures this.x == x && this.y == y && this.width == width && this.height == height
      ensures speed == 5.0 && dy == 0.0
    {
      this.x := x;
      this.y := y;
      this.width := width;
      this.height := height;
      speed := 5.0;
      dy := 0.0;
    }

    /** The paddle's rectangle. */
    function Rect(): Box
      reads this
    {
      Box(x, y, width, height)
    }

    /** Moves the paddle by its velocity and pulls it back inside a canvas of height `canvasHeight`. */
    method Update(canvasHeight: real)
      modifies this`y
      ensures y == Clamp(old(y) + dy, height, canvasHeight)
      ensures height <= canvasHeight ==> 0.0 <= y <= canvasHeight - height
    {
      y := y + dy;
      if y < 0.0 {
        y := 0.0;
      }
      if y + height > canvasHeight {
        y := canvasHeight - height;
      }
    }

    /** The paddle's vertical centre, as far from its top as from its bottom. */
    function CenterY(): (c: real)
      reads this
      ensures c - y == y + height - c
      ensures height >= 0.0 ==> y <= c <= y + height
    {
      y + height / 2.0
    }
  }

  class Ball {
    var x: real
    var y: real
    const radius: real
    const baseSpeed: real
    var speed: real
    var dx: real
    var dy: real
    var lastHit: Option<Slot>

    constructor (x: real, y: real, radius: real)
      ensures this.x == x && this.y == y && this.radius == radius
      ensures baseSpeed == 4.0 && speed == baseSpeed && dx == speed && dy == speed && lastHit == None
    {
      this.x := x;
      this.y := y;
      this.radius := radius;
      baseSpeed := 4.0;
      speed := 4.0;
      dx := 4.0;
      dy := 4.0;
      lastHit := None;
    }

    /** The ball's moving parts. */
    function State(): BallState
      reads this
    {
      BallState(x, y, dx, dy, speed, lastHit)
    }

    /** Moves the ball by exactly its velocity; `dy` reverses when its edge touches the top or the bottom. */
    method Update(canvasHeight: real)
      modifies this`x, this`y, this`dy
      ensures x == old(x) + dx && y == old(y) + old(dy)
      ensures (y - radius <= 0.0 || y + radius >= canvasHeight) ==> dy == -old(dy)
      ensures !(y - radius <= 0.0 || y + radius >= canvasHeight) ==> dy == old(dy)
    {
      x := x + dx;
      y := y + dy;
      if y - radius <= 0.0 || y + radius >= canvasHeight {
        dy := -dy;
      }
    }

    /** Serves the ball from the centre of the canvas; the two coin flips pick the diagonal. */
    method Reset(canvasWidth: real, canvasHeight: real, dxPositive: bool, dyPositive: bool)
      modifies this`x, this`y, this`speed, this`dx, this`dy, this`lastHit
      ensures State() == Served(canvasWidth, canvasHeight, baseSpeed, dxPositive, dyPositive)
    {
      x := canvasWidth / 2.0;
      y := canvasHeight / 2.0;
      speed := baseSpeed;
      dx := (if dxPositive then 1.0 else -1.0) * speed;
      dy := (if dyPositive then 1.0 else -1.0) * speed;
      lastHit := None;
    }

    /** Raises the speed by 0.5 and points `dx` along the new speed. */
    method IncreaseSpeed()
      modifies this`speed, this`dx
      ensures State() == Sped(old(State()))
    {
      speed := speed + 0.5;
      var direction := if dx > 0.0 then 1.0 else -1.0;
      dx := direction * speed;
    }
  }

  /** The script's global game state: the two paddles, the ball, the mode, the pause flag and the scores. */
  class Game {
    const paddle1: Paddle
    const paddle2: Paddle
    const ball: Ball
    var gameMode: GameMode
    var gamePaused: bool
    var player1Score: nat
    var player2Score: nat

    /** Distinct paddles of the script's size and speed, and a ball whose speed never drops below its base. */
    ghost predicate Valid()
      reads this, paddle1, paddle2, ball
    {
      paddle1 != paddle2 &&
      paddle1.height == 100.0 && paddle2.height == 100.0 &&
      paddle1.speed == 5.0 && paddle2.speed == 5.0 &&
      ball.baseSpeed == 4.0 && ball.speed >= ball.baseSpeed
    }

    /** The objects the script creates on a canvas of the given size, before any game starts. */
    constructor (canvasWidth: real, canvasHeight: real)
      ensures Valid() && fresh(paddle1) && fresh(paddle2) && fresh(ball)
      ensures paddle1.Rect() == Box(20.0, canvasHeight / 2.0 - 50.0, 10.0, 100.0)
      ensures paddle2.Rect() == Box(canvasWidth - 30.0, canvasHeight / 2.0 - 50.0, 10.0, 100.0)
      ensures ball.State() == BallState(canvasWidth / 2.0, canvasHeight / 2.0, 4.0, 4.0, 4.0, None)
      ensures ball.radius == 8.0
      ensures gameMode == Pvp && !gamePaused && player1Score == 0 && player2Score == 0
    {
      paddle1 := new Paddle(20.0, canvasHeight / 2.0 - 50.0, 10.0, 100.0);
      paddle2 := new Paddle(canvasWidth - 30.0, canvasHeight / 2.0 - 50.0, 10.0, 100.0);
      ball := new Ball(canvasWidth / 2.0, canvasHeight / 2.0, 8.0);
      gameMode := Pvp;
      gamePaused := false;
      player1Score := 0;
      player2Score := 0;
    }

    /**
     * `handleInput`: while unpaused, W/S set the left paddle's velocity (W winning) and, in
     * player-versus-player mode only, the arrow keys set the right one's.  Paused, nothing changes.
     */
    method HandleInput(keys: map<string, bool>)
      requires Valid()
      modifies paddle1`dy, paddle2`dy
      ensures Valid()
      ensures gamePaused ==> paddle1.dy == old(paddle1.dy) && paddle2.dy == old(paddle2.dy)
      ensures !gamePaused ==>
        paddle1.dy == KeyVelocity(Pressed(keys, "w"), Pressed(keys, "s"), paddle1.speed)
      ensures !gamePaused && gameMode == Pvp ==>
        paddle2.dy == KeyVelocity(Pressed(keys, "arrowup"), Pressed(keys, "arrowdown"), paddle2.speed)
      ensures gameMode != Pvp ==> paddle2.dy == old(paddle2.dy)
    {
      if gamePaused {
        return;
      }
      if Pressed(keys, "w") {
        paddle1.dy := -paddle1.speed;
      } else if Pressed(keys, "s") {
        paddle1.dy := paddle1.speed;
      } else {
        paddle1.dy := 0.0;
      }
      if gameMode == Pvp {
        if Pressed(keys, "arrowup") {
          paddle2.dy := -paddle2.speed;
        } else if Pressed(keys, "arrowdown") {
          paddle2.dy := paddle2.speed;
        } else {
          paddle2.dy := 0.0;
        }
      }
    }

    /** `updateCPU`: in player-versus-CPU mode, unpaused, the right paddle chases the ball's height. */
    method UpdateCPU()
      requires Valid()
      modifies paddle2`dy
      ensures Valid()
      ensures gameMode == Pvc && !gamePaused ==>
        paddle2.dy == CpuVelocity(ball.y - paddle2.CenterY(), paddle2.speed)
      ensures !(gameMode == Pvc && !gamePaused) ==> paddle2.dy == old(paddle2.dy)
    {
      if gameMode == Pvc && !gamePaused {
        var paddleCenter := paddle2.CenterY();
        var ballY := ball.y;
        var diff := ballY - paddleCenter;
        var magnitude := if diff < 0.0 then -diff else diff;
        if magnitude > 10.0 {
          if diff > 0.0 {
            paddle2.dy := paddle2.speed * 0.7;
          } else {
            paddle2.dy := -paddle2.speed * 0.7;
          }
        } else {
          paddle2.dy := 0.0;
        }
      }
    }

    /** The left-paddle test of `checkCollisions`, in place. */
    method CollideLeft()
      requires Valid()
      modifies ball
      ensures Valid()
      ensures ball.State() == LeftStep(old(ball.State()), ball.radius, paddle1.Rect())
    {
      if ball.x - ball.radius <= paddle1.x + paddle1.width && ball.x - ball.radius >= paddle1.x &&
         ball.y >= paddle1.y && ball.y <= paddle1.y + paddle1.height && ball.dx < 0.0
      {
        ball.dx := -ball.dx;
        ball.IncreaseSpeed();
        ball.lastHit := Some(Player1);
        var hitPos := (ball.y - paddle1.CenterY()) / (paddle1.height / 2.0);
        ball.dy := hitPos * ball.speed * 0.5;
      }
    }

    /** The right-paddle test of `checkCollisions`, in place. */
    method CollideRight()
      requires Valid()
      modifies ball
      ensures Valid()
      ensures ball.State() == RightStep(old(ball.State()), ball.radius, paddle2.Rect())
    {
      if ball.x + ball.radius >= paddle2.x && ball.x + ball.radius <= paddle2.x + paddle2.width &&
         ball.y >= paddle2.y && ball.y <= paddle2.y + paddle2.height && ball.dx > 0.0
      {
        ball.dx := -ball.dx;
        ball.IncreaseSpeed();
        ball.lastHit := Some(Player2);
        var hitPos := (ball.y - paddle2.CenterY()) / (paddle2.height / 2.0);
        ball.dy := hitPos * ball.speed * 0.5;
      }
    }

    /** `checkCollisions`: both paddle tests, then the scoring test, exactly as `Collide` says. */
    method CheckCollisions(canvasWidth: real, canvasHeight: real, dxPositive: bool, dyPositive: bool)
      requires Valid()
      modifies ball, this`player1Score, this`player2Score
      ensures Valid()
      ensures Outcome(ball.State(), player1Score, player2Score) ==
        Collide(old(ball.State()), ball.radius, paddle1.Rect(), paddle2.Rect(), canvasWidth, canvasHeight,
                ball.baseSpeed, old(player1Score), old(player2Score), dxPositive, dyPositive)
    {
      CollideLeft();
      CollideRight();
      if ball.x < 0.0 {
        player2Score := player2Score + 1;
        ball.Reset(canvasWidth, canvasHeight, dxPositive, dyPositive);
      } else if ball.x > canvasWidth {
        player1Score := player1Score + 1;
        ball.Reset(canvasWidth, canvasHeight, dxPositive, dyPositive);
      }
    }

    /** `togglePause`: the paused flag flips, so two calls restore it. */
    method TogglePause()
      modifies this`gamePaused
      ensures gamePaused == !old(gamePaused)
    {
      if gamePaused {
        gamePaused := false;
      } else {
        gamePaused := true;
      }
    }
  }
}
