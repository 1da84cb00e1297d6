# Pong Online: a Dafny model of the game server and the browser game's physics

This project models the authoritative part of a two-player online Pong game and proves
properties of that model. It covers two pieces:

* **The server** (`server.js`):
  * the `GameRoom` record of one match: players, paddles, ball, scores, and the running and paused flags;
  * the `gameRooms` registry and the socket handlers that use it: `create_room`, `join_room`,
    `start_game`, `player_input` with its per-connection throttle, `pause_game`, `disconnect` and `get_rooms`;
  * one firing of the 16 ms loop that a started room runs.
* **The browser client's local game** (`script.js`): the `Paddle` and `Ball` objects, keyboard
  input, the CPU paddle, collision and scoring, and the pause toggle.

Both sources change state in place, so do the models. `GameRoom`, the registry, the throttle map,
the room loop and the client's objects are Dafny classes with `modifies` clauses. Each method is
proved to end in the state that a function of its old state describes. The properties the game
relies on are then proved about those functions, as lemmas and as the functions' own `ensures`.

Files and modules:

| file | module | models |
|---|---|---|
| common.dfy | `Common` | `Option` (JavaScript `null`) and the two slots `'player1'`/`'player2'` |
| timing.dfy | `Timing` | the rule "at least *gap* ms since the last accepted event", which the 10 ms input throttle and the 16 ms ball gate share (`Passes`), and what it accepts from any run of events (`Admitted`), which the throttle is tied to through `InputThrottle.AdmitRun`; the ball gate is stated per firing in `RoomLoop.Fire` |
| physics.dfy | `Physics` | the server's paddle and ball arithmetic as value functions: movement, wall bounce, paddle hits, scoring, serve |
| room.dfy | `Room` | `class GameRoom` |
| server.dfy | `Server` | `class Registry` (the `gameRooms` Map, its keys kept in insertion order as JavaScript Maps iterate), the handlers, `class InputThrottle` (`inputCooldowns`), `class RoomLoop` (one `setInterval` callback) |
| client.dfy | `Client` | the script's `Paddle`, `Ball` and global game state, plus `handleInput`, `updateCPU`, `checkCollisions` and `togglePause` |

Modelling conventions:

* Ball coordinates and speeds are exact `real`s. Server paddle positions are integers, since they
  start at 150 and move in steps of 7.
* Each `Math.random() > 0.5` draw is a boolean parameter: `dxPositive` and `dyPositive` choose the
  serve diagonal.
* The time (`Date.now()`) is an integer parameter `now`.
* Fresh room ids are a parameter.
* Socket emits become return values:
  * `JoinOutcome` covers `room_joined`, `join_error` and `room_ready`;
  * `PaddleUpdate` is the `paddle_update` message;
  * `Departure` says what `disconnect` did;
  * `Firing` is what `score_update` and `game_update` carry.
* On the client, the canvas size, the `keys` dictionary and the random draws are parameters.

The model follows the code as written, including these behaviours, which a reader of the game's rules might not expect:

* `startGame` keeps the scores; it does not reset them to zero.
* `pauseGame` and `togglePause` flip the flag in every state, including before a match starts.
* `updatePaddle` is not gated by the running or paused flags.
* The slot is chosen by the current player count, not by the next free slot. Every room in the
  registry always holds at least one player (`Registry.Valid`), so every successful `join_room`
  yields `'player2'`, even after player 1 has left. The room then has two `'player2'` entries.
* `addPlayer` with an id already present overwrites the entry. The count does not grow, and the
  entry's slot becomes `'player2'`.
* `create_room` replaces any room already stored under the same id. The new room takes the replaced one's
  place in the Map's order.
* There is no "terminated" state. A room that becomes empty on `disconnect` is deleted from the
  registry. A loop checks only that *some* room is registered under its id, so the loop of a
  replaced room keeps running.
* `start_game` on a full room that is already running starts a second loop for it (`StartGame`
  returns a new `RoomLoop` each time).
* A ball at x = 5 moving left at speed 4 is not hit by the left paddle. After the move it is at
  x = 1, and its left edge lies left of the paddle's x = 20, so it only keeps travelling
  (`NoHitPastPaddle`). A centre hit needs the ball to arrive inside the band, for example at
  x = 28 (`CentreHitScenario`).

## Model

| member | source | states |
|---|---|---|
| Timing.Admitted | server.js:319-325 | the accepted events of a run are a subsequence of it, in their original order, picked by "at least gap since the last accepted one" |
| Timing.AdmittedSpaced | server.js:319-325 | whatever the arrival times, consecutive accepted events are at least the gap apart; `InputThrottle.AdmitRun` shows the throttle accepts exactly `Admitted`, so applied inputs of one socket are at least 10 ms apart |
| Timing.OnlyFirstOfCloseEvents | server.js:319-325 | of two inputs less than 10 ms apart, the first accepted, only the first is applied |
| Physics.MovePaddle | server.js:100-106 | `"up"` gives y - 7 when y >= 7 and 0 otherwise; `"down"` gives y + 7 when that is at most 300 and 300 otherwise; any other direction leaves y; a y in [0,300] stays in [0,300] |
| Physics.MoveAllStaysOnBoard | server.js:95-106 | any run of paddle inputs keeps a paddle that starts on the board inside [0,300] |
| Physics.Moved | server.js:119-120 | the ball moves by exactly (dx, dy); velocity, speed and radius untouched |
| Physics.WallBounce | server.js:123-125 | dy is negated iff y-8 <= 0 or y+8 >= 400; x, y, dx, speed and radius are not touched |
| Physics.HitOffset | server.js:140 | the hit position lies in [-1, 1] when the ball is within the paddle's span, and is 0 exactly at the centre |
| Physics.Deflect | server.js:135-141 | a hit raises speed by exactly 0.3, sets dx to +speed when the ball came from the right and -speed when from the left, dy to offset*speed*0.5 |
| Physics.AngleBound | server.js:135-141 | a ball deflected within the paddle's span leaves with |dy| <= speed/2 of its new speed |
| Physics.Served | server.js:174-183 | the reset ball is at (400,200) with speed 4, radius 8 and |dx| = |dy| = 4, signs from the two draws |
| Physics.ScoreStep | server.js:161-171 | x < 0 gives player 2 one point and event `player2_score`; x > 800 does that for player 1; a score serves a new ball; otherwise nothing changes; at most one score moves |
| Physics.Advance | server.js:112-172 | one update never decreases a score, changes at most one score by one, and reports an event iff a score changed |
| Physics.Paddle1Hit | server.js:129-142 | a left-paddle hit raises speed by exactly 0.3, leaves dx = +speed and |dy| <= speed/2, and cannot score in the same tick |
| Physics.Paddle2Hit | server.js:145-158 | a right-paddle hit mirrors it with dx = -speed |
| Physics.SpeedNeverDrops | server.js:135-182 | the ball's speed never falls below the base speed 4 |
| Physics.CentreHitScenario | server.js:118-142 | a ball at (32,200) moving left at 4 against the left paddle at y 150..250 leaves with dx = 4.3, dy = 0 |
| Physics.NoHitPastPaddle | server.js:118-169 | a ball at x = 5 moving left at 4, clear of the walls, moves to x = 1 with its velocity kept, and no score is made |
| Room.GameRoom.constructor | server.js:51-73 | a new room: no players, ball at (400,200) with velocity (4,4), paddles at y = 150, scores 0-0, not running, not paused |
| Room.GameRoom.IsFull | server.js:195-197 | full iff at least two players, which under the room invariant means exactly two |
| Room.GameRoom.IsEmpty | server.js:199-201 | empty iff no players |
| Room.GameRoom.AddPlayer | server.js:75-88 | a full room refuses and is unchanged; otherwise the player is stored as player 1 if the room was empty, else player 2, and the count grows by one unless the id was present |
| Room.GameRoom.RemovePlayer | server.js:90-93 | the player's entry is deleted and the match stops running |
| Room.GameRoom.UpdatePaddle | server.js:95-110 | only the mover's paddle changes, to `MovePaddle` of its y, stamped with the time; an unknown player changes neither paddle |
| Room.GameRoom.DeflectFrom | server.js:135-141 | the in-place hit steps end in `Deflect` of the old ball |
| Room.GameRoom.MoveAndBounce | server.js:118-125 | the in-place move and bounce end in `WallBounce(Moved(...))` of the old ball |
| Room.GameRoom.CollidePaddles | server.js:128-158 | the left paddle is tested, then the right, each applying `Deflect` on a hit |
| Room.GameRoom.ResetBall | server.js:174-183 | the ball record is replaced by `Served` |
| Room.GameRoom.UpdateBall | server.js:112-172 | not running or paused: returns no event and changes nothing; otherwise ball, scores and event are exactly `Advance` of the old state; the room invariant (paddles on the board, speed >= 4) is kept |
| Room.GameRoom.StartGame | server.js:185-189 | running, not paused, a freshly served ball; scores and players unchanged |
| Room.GameRoom.PauseGame | server.js:191-193 | the paused flag flips in any state, so two calls restore it |
| Server.Joinable | server.js:370-380 | every listed entry is a room of the registry with fewer than two players, listed with its count |
| Server.JoinableComplete | server.js:370-380 | every room with fewer than two players is listed |
| Server.FirstHolding | server.js:354-355 | the position found holds the socket and no earlier room does; none found means no room holds it |
| Server.Registry.constructor | server.js:205 | the registry starts empty |
| Server.Registry.CreateRoom | server.js:217-232 | a fresh room is stored under the id, replacing any previous one; its whole state is the initial one (ball, both paddles at y 150, scores 0-0, stopped, unpaused) with the creator as its only player, as player 1 |
| Server.Registry.JoinRoom | server.js:235-270 | a missing room gives `RoomNotFound` and a full one `RoomFull`, mutating nothing; otherwise the joiner becomes player 2 and nothing else in the room changes, and `room_ready` follows iff the room is now full; other rooms untouched |
| Server.Registry.StartGame | server.js:273-280 | only a room that is registered and full beforehand starts, getting a new loop whose gate starts at `now`; only the ball and the two flags change, so players, paddles and scores are kept |
| Server.Registry.PlayerInput | server.js:313-338 | for a registered room the input moves the sender's paddle iff the throttle accepts it and the sender plays there; that paddle gets `MovePaddle` of its y and the time stamp, and nothing else in the room changes; the update returned carries the new y; a missing room touches nothing |
| Server.Registry.PauseGame | server.js:341-347 | a registered room's paused flag flips, nothing else in it changes, and the new value is returned |
| Server.Registry.FindHolder | server.js:354-355 | finds the first room, in Map order, that holds the socket |
| Server.Registry.LeaveRoomAt | server.js:355-363 | the socket leaves that room, which stops running with everything else in it kept, and is deleted (from Map and order) iff it became empty; all other rooms are unchanged |
| Server.Registry.Disconnect | server.js:350-367 | the socket leaves only the first room holding it; that room stops, with ball, paddles, scores and paused flag kept, and is deleted iff now empty; nothing changes if no room holds it; the registry invariant (every room non-empty) is kept |
| Server.Registry.GetRooms | server.js:370-381 | the list is exactly the rooms with fewer than two players, in Map order, each with its player count |
| Server.InputThrottle.constructor | server.js:311 | a connection starts with no recorded inputs |
| Server.InputThrottle.Admit | server.js:319-324 | an input is accepted iff now - last >= 10, a socket never seen counting as 0; the time is recorded only on acceptance |
| Server.InputThrottle.AdmitRun | server.js:319-325 | a run of inputs from one socket is accepted exactly as `Admitted` picks them; other sockets' records are untouched |
| Server.RoomLoop.constructor | server.js:280 | the ball gate of a new loop starts at the start time |
| Server.RoomLoop.Fire | server.js:281-306 | the loop stops when no room is registered under its id or its room is empty; else the ball is updated as `Advance` says iff 16 ms have passed and the room is running and unpaused, with nothing else in the room changed (scores sent on a score), and a snapshot is sent |
| Client.Clamp | script.js:33-39 | a paddle that fits the canvas ends within [0, canvasHeight - height]; an in-bounds position is kept; a too-tall paddle ends at canvasHeight - height |
| Client.KeyVelocity | script.js:131-147 | the up key wins over the down key; neither gives 0 |
| Client.CpuVelocity | script.js:156-167 | +0.7·speed when the ball is more than 10 below the centre, -0.7·speed when more than 10 above, else 0 |
| Client.Sped | script.js:93-97 | speed rises by exactly 0.5 and dx becomes ±speed with its sign kept (0 goes left) |
| Client.HitPos | script.js:185 | within the paddle's span the hit offset lies in [-1, 1] |
| Client.Bounce | script.js:180-186 | a left hit leaves dx > 0 and a right hit dx < 0, lastHit names the hitter, speed +0.5, dy = hitPos·speed·0.5 |
| Client.Served | script.js:82-91 | the reset ball is centred on the canvas with speed = baseSpeed, |dx| = |dy| = baseSpeed and no last hitter |
| Client.Scored | script.js:206-214 | x < 0 gives player 2 a point, x > width gives player 1 one, never both; a score resets the ball |
| Client.CollideKeepsSpeed | script.js:172-215 | `checkCollisions` never takes the speed below the base speed |
| Client.Paddle.constructor | script.js:21-28 | a paddle starts with speed 5 and no velocity |
| Client.Paddle.Update | script.js:30-40 | y becomes `Clamp(y + dy)`, so it lies in [0, canvasHeight - height] when the paddle fits |
| Client.Paddle.CenterY | script.js:48-50 | the centre is equidistant from top and bottom |
| Client.Ball.constructor | script.js:54-63 | a ball starts at base speed 4 with velocity (4,4) and no last hitter |
| Client.Ball.Update | script.js:65-73 | the ball moves by exactly (dx, dy), and dy is negated iff its edge touches the top or bottom |
| Client.Ball.Reset | script.js:82-91 | the ball becomes `Served` |
| Client.Ball.IncreaseSpeed | script.js:93-97 | the ball becomes `Sped` of its old state |
| Client.Game.constructor | script.js:101-107 | the script's initial objects: paddles at x = 20 and width - 30, centred vertically; ball centred; scores 0; mode pvp |
| Client.Game.HandleInput | script.js:127-149 | paused: nothing changes; otherwise W/S set paddle 1's velocity with W first, and the arrows set paddle 2's only in pvp mode |
| Client.Game.UpdateCPU | script.js:152-169 | in pvc mode and unpaused, paddle 2's velocity becomes `CpuVelocity`; otherwise unchanged |
| Client.Game.CollideLeft | script.js:174-187 | the in-place left-paddle test ends in `LeftStep` of the old ball |
| Client.Game.CollideRight | script.js:190-203 | the in-place right-paddle test ends in `RightStep` of the old ball |
| Client.Game.CheckCollisions | script.js:172-215 | ball and scores end exactly as `Collide` (paddle 1, paddle 2, scoring) computes |
| Client.Game.TogglePause | script.js:303-309 | the paused flag flips, so two calls restore it |

## Left out

- Express and socket.io setup, CORS and security headers, static files, `SIGTERM` and `listen` (server.js:1-47, 384-399): process and library plumbing with no game logic.
- Socket transport: `emit`, `join`, `to(...)` fan-out and console logging. Handlers return the value they would send instead.
- The `setInterval` scheduler and `clearInterval`: one firing is `RoomLoop.Fire(now)`, and a cleared loop is never fired again (`requires !cleared`). Timers and concurrent rooms are not modelled.
- `generateRoomId`: its base-36 slicing of a random float's string form is not modelled; the id is a parameter of `CreateRoom`.
- `Math.random` and `Date.now()`: parameters, as described above. `player_input` reads the clock twice, once for the throttle (server.js:319) and once for the paddle's `lastUpdate` stamp (server.js:109); the model uses the one `now` for both.
- IEEE-754 rounding: all arithmetic is exact, so the model is idealised (for example 4 + 0.3 is exactly 4.3).
- JavaScript dynamic typing: `direction` and room ids are modelled as strings, though a client could send other JSON values; object-key quirks such as `"__proto__"` are not modelled.
- The `ready` flag of a player and `hostId` are stored but never read by the source; they are kept as data only.
- Browser DOM, canvas and socket code in script.js: drawing, `updateScore`, `showScreen`, `gameLoop`/`onlineGameLoop`, `startGame`, `restartGame`, the online socket handlers and room UI, `returnToMenu`, and the listeners that write `keys` (key state is a parameter). `pauseGame`/`unpauseGame` appear only through their effect on the flag inside `togglePause`.
- Client.Game: `gameRunning` is not a field, because it only gates the listeners and the frame loop, which are not modelled; `gameMode` is set only by the constructor, since `startGame`, which chooses it, is not modelled.
