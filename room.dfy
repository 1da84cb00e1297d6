/**
 * One match on the server (`class GameRoom`, server.js:50-202): the players who joined, the two
 * paddles, the ball, the scores and the running and paused flags, all updated in place.
 */
module Room {
  import opened Common
  import opened Physics

  /** A player's entry in the room: the socket it plays from, its slot, and a `ready` flag never set. */
  datatype Player = Player(socketId: string, playerNumber: Slot, ready: bool)

  /** Everything about a room that its operations change, as one value. */
  datatype RoomState = RoomState(players: map<string, Player>, ball: Ball, paddle1: Paddle, paddle2: Paddle,
                                 scores: Scores, gameRunning: bool, gamePaused: bool)

  class GameRoom {
    const roomId: string
    const hostId: string
    /** The time the room was created (`lastUpdate`); nothing reads it again. */
    const createdAt: int
    var players: map<string, Player>
    var ball: Ball
    var paddle1: Paddle
    var paddle2: Paddle
    var scores: Scores
    var gameRunning: bool
    var gamePaused: bool

    /** What every operation keeps: at most two players, fixed paddle geometry on the board, the ball's radius and a speed no lower than the base speed. */
    ghost predicate Valid()
      reads this
    {
      |players| <= 2 &&
      WellPlaced(paddle1, Player1) && WellPlaced(paddle2, Player2) &&
      ball.radius == BallRadius && ball.speed >= BaseSpeed
    }

    constructor (roomId: string, hostId: string, now: int)
      ensures Valid()
      ensures this.roomId == roomId && this.hostId == hostId && createdAt == now
      ensures players == map[] && ball == InitialBall()
      ensures paddle1 == InitialPaddle(Player1) && paddle2 == InitialPaddle(Player2)
      ensures scores == Scores(0, 0) && !gameRunning && !gamePaused
    {
      this.roomId := roomId;
      this.hostId := hostId;
      createdAt := now;
      players := map[];
      ball := InitialBall();
      paddle1 := InitialPaddle(Player1);
      paddle2 := InitialPaddle(Player2);
      scores := Scores(0, 0);
      gameRunning := false;
      gamePaused := false;
    }

    /** The room's mutable fields, so that a handler can say which of them it leaves alone. */
    function State(): RoomState
      reads this
    {
      RoomState(players, ball, paddle1, paddle2, scores, gameRunning, gamePaused)
    }

    /** The room holds two players (or more, which `Valid` rules out). */
    predicate IsFull(): (full: bool)
      reads this
      ensures full <==> |players| >= 2
      ensures Valid() ==> (full <==> |players| == 2)
    {
      |players| >= 2
    }

    /** The room holds nobody. */
    predicate IsEmpty(): (empty: bool)
      reads this
      ensures empty <==> players == map[]
    {
      |players| == 0
    }

    /** The paddle a slot controls. */
    function PaddleOf(slot: Slot): Paddle
      reads this
    {
      if slot == Player1 then paddle1 else paddle2
    }

    /**
     * Admits a player unless the room is full.  The slot is chosen by the number of players
     * present, so the first is player 1 and every later one player 2; an id already present
     * is overwritten and the count does not grow.
     */
    method AddPlayer(playerId: string, socketId: string) returns (slot: Option<Slot>)
      requires Valid()
      modifies this`players
      ensures Valid()
      ensures old(IsFull()) ==> slot == None && players == old(players)
      ensures !old(IsFull()) ==> slot == Some(if old(players) == map[] then Player1 else Player2)
      ensures !old(IsFull()) ==> players == old(players)[playerId := Player(socketId, slot.value, false)]
      ensures !old(IsFull()) ==> |players| == old(|players|) + (if playerId in old(players) then 0 else 1)
    {
      if |players| >= 2 {
        return None;
      }
      var playerNumber := if |players| == 0 then Player1 else Player2;
      players := players[playerId := Player(socketId, playerNumber, false)];
      slot := Some(playerNumber);
    }

    /** Removes a player (absent or not) and stops the match. */
    method RemovePlayer(playerId: string)
      requires Valid()
      modifies this`players, this`gameRunning
      ensures Valid()
      ensures players == old(players) - {playerId} && !gameRunning
      ensures |players| == old(|players|) - (if playerId in old(players) then 1 else 0)
    {
      players := players - {playerId};
      gameRunning := false;
    }

    /**
     * Moves the paddle of `playerId` by one input and stamps it with `now`.  Neither flag gates
     * it; an unknown player changes nothing, and an unknown direction only stamps the paddle.
     */
    method UpdatePaddle(playerId: string, direction: string, now: int)
      requires Valid()
      modifies this`paddle1, this`paddle2
      ensures Valid()
      ensures playerId !in players ==> paddle1 == old(paddle1) && paddle2 == old(paddle2)
      ensures playerId in players && players[playerId].playerNumber == Player1 ==>
        paddle1 == old(paddle1).(y := MovePaddle(old(paddle1.y), direction), lastUpdate := Some(now)) &&
        paddle2 == old(paddle2)
      ensures playerId in players && players[playerId].playerNumber == Player2 ==>
        paddle2 == old(paddle2).(y := MovePaddle(old(paddle2.y), direction), lastUpdate := Some(now)) &&
        paddle1 == old(paddle1)
    {
      if playerId !in players {
        return;
      }
      var player := players[playerId];
      if player.playerNumber == Player1 {
        paddle1 := paddle1.(y := MovePaddle(paddle1.y, direction));
        paddle1 := paddle1.(lastUpdate := Some(now));
      } else {
        paddle2 := paddle2.(y := MovePaddle(paddle2.y, direction));
        paddle2 := paddle2.(lastUpdate := Some(now));
      }
    }

    /** Serves a fresh ball; `dxPositive` and `dyPositive` are the two coin flips that pick its diagonal. */
    method ResetBall(dxPositive: bool, dyPositive: bool)
      modifies this`ball
      ensures ball == Served(dxPositive, dyPositive)
    {
      ball := Ball(400.0, 200.0, (if dxPositive then 1.0 else -1.0) * 4.0,
                   (if dyPositive then 1.0 else -1.0) * 4.0, 8.0, 4.0);
    }

    /** The ball's answer to a paddle hit, step by step as the source writes it out for each paddle. */
    method DeflectFrom(p: Paddle)
      requires p.height > 0
      modifies this`ball
      ensures ball == Deflect(old(ball), p)
    {
      ball := ball.(dx := -ball.dx);
      ball := ball.(speed := ball.speed + 0.3);
      ball := ball.(dx := if ball.dx > 0.0 then ball.speed else -ball.speed);
      var hitPos := (ball.y - (p.y as real + p.height as real / 2.0)) / (p.height as real / 2.0);
      ball := ball.(dy := hitPos * ball.speed * 0.5);
    }

    /** The first half of a tick: the ball travels along its velocity and bounces off the walls. */
    method MoveAndBounce()
      modifies this`ball
      ensures ball == WallBounce(Moved(old(ball)))
    {
      ball := ball.(x := ball.x + ball.dx);
      ball := ball.(y := ball.y + ball.dy);
      if ball.y - ball.radius <= 0.0 || ball.y + ball.radius >= 400.0 {
        ball := ball.(dy := -ball.dy);
      }
    }

    /** The second half of a tick before scoring: the left paddle is tested first, then the right. */
    method CollidePaddles()
      requires Valid()
      modifies this`ball
      ensures ball == Paddle2Step(Paddle1Step(old(ball), paddle1), paddle2)
    {
      if ball.x - ball.radius <= (paddle1.x + paddle1.width) as real &&
         ball.x - ball.radius >= paddle1.x as real &&
         ball.y >= paddle1.y as real &&
         ball.y <= (paddle1.y + paddle1.height) as real &&
         ball.dx < 0.0
      {
        DeflectFrom(paddle1);
      }
      if ball.x + ball.radius >= paddle2.x as real &&
         ball.x + ball.radius <= (paddle2.x + paddle2.width) as real &&
         ball.y >= paddle2.y as real &&
         ball.y <= (paddle2.y + paddle2.height) as real &&
         ball.dx > 0.0
      {
        DeflectFrom(paddle2);
      }
    }

    /**
     * One tick of the ball.  A room that is not running, or is paused, is left as it is.
     * Otherwise the ball moves, bounces, meets the paddles and may score, exactly as `Advance`
     * says, and the score event is returned.
     */
    method UpdateBall(dxPositive: bool, dyPositive: bool) returns (event: Option<ScoreEvent>)
      requires Valid()
      modifies this`ball, this`scores
      ensures Valid()
      ensures !old(gameRunning) || old(gamePaused) ==>
        event == None && ball == old(ball) && scores == old(scores)
      ensures old(gameRunning) && !old(gamePaused) ==>
        Step(ball, scores, event) == Advance(old(ball), paddle1, paddle2, old(scores), dxPositive, dyPositive)
    {
      if !gameRunning || gamePaused {
        return None;
      }
      ghost var start := ball;
      MoveAndBounce();
      CollidePaddles();
      assert ball == Deflected(start, paddle1, paddle2);

      if ball.x < 0.0 {
        scores := scores.(player2 := scores.player2 + 1);
        ResetBall(dxPositive, dyPositive);
        return Some(Player2Scored);
      } else if ball.x > 800.0 {
        scores := scores.(player1 := scores.player1 + 1);
        ResetBall(dxPositive, dyPositive);
        return Some(Player1Scored);
      }
      return None;
    }

    /** Starts (or restarts) the match: running, unpaused, a fresh ball; the scores are kept. */
    method StartGame(dxPositive: bool, dyPositive: bool)
      requires Valid()
      modifies this`gameRunning, this`gamePaused, this`ball
      ensures Valid()
      ensures gameRunning && !gamePaused && ball == Served(dxPositive, dyPositive)
      ensures scores == old(scores) && players == old(players)
    {
      gameRunning := true;
      gamePaused := false;
      ResetBall(dxPositive, dyPositive);
    }

    /** Flips the paused flag, whatever state the room is in; two calls restore it. */
    method PauseGame()
      modifies this`gamePaused
      ensures gamePaused == !old(gamePaused)
    {
      gamePaused := !gamePaused;
    }
  }
}
