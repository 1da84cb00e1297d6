/**
 * The server's room registry and the socket handlers built on it (server.js:205-381): creating
 * and joining rooms, starting and pausing a match, throttled paddle input, disconnection and
 * the joinable-room listing, plus one firing of the loop a started room runs.  Socket fan-out
 * is reduced to the value a handler would send.
 */
module Server {
  import opened Common
  import opened Physics
  import opened Room
  import opened Timing

  // ---------------------------------------------------------------------------------------
  // Specifications of the two loops over the registry, on values

  /** One entry of `rooms_list`: a room id and how many players it holds. */
  datatype RoomEntry = RoomEntry(roomId: string, players: nat)

  /** The room `id` has a free slot according to `occupancy`. */
  predicate HasRoomFor(occupancy: map<string, nat>, id: string)
  {
    id in occupancy && occupancy[id] < 2
  }

  /** The `rooms_list` of rooms `ids` (in that order) whose occupancies are `occupancy`. */
  function Joinable(ids: seq<string>, occupancy: map<string, nat>): (r: seq<RoomEntry>)
    ensures |r| <= |ids|
    ensures forall e :: e in r ==> e.roomId in ids && HasRoomFor(occupancy, e.roomId) && e.players == occupancy[e.roomId]
    decreases |ids|
  {
    if ids == [] then []
    else
      var last := ids[|ids| - 1];
      Joinable(ids[..|ids| - 1], occupancy) +
        (if HasRoomFor(occupancy, last) then [RoomEntry(last, occupancy[last])] else [])
  }

  /** Every room with a free slot is listed, with its occupancy. */
  lemma {:induction false} JoinableComplete(ids: seq<string>, occupancy: map<string, nat>, id: string)
    requires id in ids && HasRoomFor(occupancy, id)
    ensures RoomEntry(id, occupancy[id]) in Joinable(ids, occupancy)
    decreases |ids|
  {
    var last := ids[|ids| - 1];
    if id != last {
      assert id in ids[..|ids| - 1] by {
        var k :| 0 <= k < |ids| && ids[k] == id;
        assert k < |ids| - 1 && ids[..|ids| - 1][k] == id;
      }
      JoinableComplete(ids[..|ids| - 1], occupancy, id);
    }
  }

  /** `socketId` is one of the players of room `id`, according to `members`. */
  predicate Holds(members: map<string, set<string>>, id: string, socketId: string)
  {
    id in members && socketId in members[id]
  }

  /** The position in `ids`, from `from` on, of the first room that holds `socketId`. */
  function FirstHolding(ids: seq<string>, members: map<string, set<string>>, socketId: string, from: nat): (r: Option<nat>)
    requires from <= |ids|
    ensures r.Some? ==> from <= r.value < |ids| && Holds(members, ids[r.value], socketId)
    ensures forall k :: from <= k < (if r.Some? then r.value else |ids|) ==> !Holds(members, ids[k], socketId)
    decreases |ids| - from
  {
    if from == |ids| then None
    else if Holds(members, ids[from], socketId) then Some(from)
    else FirstHolding(ids, members, socketId, from + 1)
  }

  /** The sequence `s` without its element at `i`. */
  function RemoveAt(s: seq<string>, i: nat): (r: seq<string>)
    requires i < |s|
    ensures |r| == |s| - 1
    ensures forall x :: x in r <==> exists k :: 0 <= k < |s| && k != i && s[k] == x
  {
    var r := s[..i] + s[i + 1..];
    assert forall k :: 0 <= k < |r| ==> r[k] == (if k < i then s[k] else s[k + 1]);
    r
  }

  /** A sequence without repetitions. */
  predicate Distinct(s: seq<string>)
  {
    forall i, j :: 0 <= i < j < |s| ==> s[i] != s[j]
  }

  /** Removing an element from a sequence without repetitions removes exactly that value. */
  lemma RemoveAtDistinct(s: seq<string>, i: nat)
    requires i < |s| && Distinct(s)
    ensures Distinct(RemoveAt(s, i))
    ensures forall x :: x in RemoveAt(s, i) <==> x in s && x != s[i]
  {
  }

  // ---------------------------------------------------------------------------------------
  // Handler results

  /** Why `join_room` is refused: `'Sala no encontrada'` or `'Sala llena'`. */
  datatype JoinFailure = RoomNotFound | RoomFull

  /** The answer to `join_room`: `join_error`, or `room_joined` plus whether `room_ready` follows. */
  datatype JoinOutcome = JoinError(reason: JoinFailure) | Joined(slot: Slot, roomReady: bool)

  /** The `paddle_update` broadcast after an accepted input. */
  datatype PaddleUpdate = PaddleUpdate(playerNumber: Slot, y: int, timestamp: int)

  /** What `disconnect` did: nothing, or left room `roomId`, which was deleted if it became empty. */
  datatype Departure = NotInAnyRoom | Left(roomId: string, roomDeleted: bool)

  /** The `game_update` snapshot. */
  datatype GameUpdate = GameUpdate(ball: Ball, paddle1: Paddle, paddle2: Paddle, timestamp: int)

  /** One firing of a room's loop: it cancels itself, or it sends a `score_update` (maybe) and a `game_update`. */
  datatype Firing = Stopped | Fired(scoreUpdate: Option<Scores>, update: GameUpdate)

  // ---------------------------------------------------------------------------------------
  // The registry: the `gameRooms` Map

  class Registry {
    /** The keys of the Map in insertion order, which is the order its loops visit them in. */
    var order: seq<string>
    var rooms: map<string, GameRoom>

    /** The Map's keys are `order`'s elements; each room is stored under its own id (hence once), valid and non-empty. */
    ghost predicate Valid()
      reads this, rooms.Values
    {
      Distinct(order) &&
      (forall id :: id in rooms <==> id in order) &&
      (forall id :: id in rooms ==> rooms[id].roomId == id) &&
      (forall r :: r in rooms.Values ==> r.Valid() && r.players != map[])
    }

    /** How many players each room holds. */
    ghost function Occupancy(): map<string, nat>
      reads this, rooms.Values
    {
      map id | id in rooms :: |rooms[id].players|
    }

    /** The players of each room. */
    ghost function Members(): map<string, set<string>>
      reads this, rooms.Values
    {
      map id | id in rooms :: rooms[id].players.Keys
    }

    constructor ()
      ensures Valid() && order == [] && rooms == map[]
    {
      order := [];
      rooms := map[];
    }

    /**
     * `create_room` with the freshly drawn id `roomId`: a new room replaces any room under that
     * id (the new room takes the replaced one's place in the order), and the creator joins it as player 1.
     */
    method CreateRoom(roomId: string, socketId: string, now: int) returns (room: GameRoom, slot: Slot)
      requires Valid()
      modifies this
      ensures Valid()
      ensures fresh(room) && rooms == old(rooms)[roomId := room]
      ensures order == if roomId in old(rooms) then old(order) else old(order) + [roomId]
      ensures slot == Player1
      ensures room.roomId == roomId && room.hostId == socketId
      ensures room.State() == RoomState(map[socketId := Player(socketId, Player1, false)], InitialBall(),
                                        InitialPaddle(Player1), InitialPaddle(Player2), Scores(0, 0), false, false)
    {
      room := new GameRoom(roomId, socketId, now);
      rooms := rooms[roomId := room];
      if roomId !in order {
        order := order + [roomId];
      }
      var added := room.AddPlayer(socketId, socketId);
      slot := added.value;
    }

    /**
     * `join_room`: a missing room and a full room are refused and nothing changes; otherwise the
     * joiner is added.  Every registered room already holds a player, so a joiner is always player 2.
     */
    method JoinRoom(roomId: string, socketId: string) returns (out: JoinOutcome)
      requires Valid()
      modifies rooms.Values
      ensures Valid() && rooms == old(rooms) && order == old(order)
      ensures forall id :: id in rooms && id != roomId ==> unchanged(rooms[id])
      ensures roomId !in rooms ==> out == JoinError(RoomNotFound)
      ensures roomId in rooms && old(rooms[roomId].IsFull()) ==>
        out == JoinError(RoomFull) && unchanged(rooms[roomId])
      ensures roomId in rooms && !old(rooms[roomId].IsFull()) ==>
        out == Joined(Player2, rooms[roomId].IsFull()) &&
        rooms[roomId].State() == old(rooms[roomId].State()).(
          players := old(rooms[roomId].players)[socketId := Player(socketId, Player2, false)])
      ensures out.Joined? ==> out.slot == Player2
    {
      if roomId !in rooms {
        return JoinError(RoomNotFound);
      }
      var room := rooms[roomId];
      if room.IsFull() {
        return JoinError(RoomFull);
      }
      var added := room.AddPlayer(socketId, socketId);
      out := Joined(added.value, room.IsFull());
    }

    /**
     * `start_game`: a full room is (re)started and gets a new loop whose gate starts at `now`;
     * any other request does nothing.
     */
    method StartGame(roomId: string, now: int, dxPositive: bool, dyPositive: bool) returns (loop: RoomLoop?)
      requires Valid()
      modifies rooms.Values
      ensures Valid() && rooms == old(rooms) && order == old(order)
      ensures forall id :: id in rooms && id != roomId ==> unchanged(rooms[id])
      ensures loop != null <==> roomId in rooms && old(rooms[roomId].IsFull())
      ensures loop == null ==> roomId !in rooms || unchanged(rooms[roomId])
      ensures loop != null ==>
        fresh(loop) && loop.roomId == roomId && loop.room == rooms[roomId] &&
        loop.lastBallUpdate == now && !loop.cleared &&
        rooms[roomId].State() == old(rooms[roomId].State()).(
          ball := Served(dxPositive, dyPositive), gameRunning := true, gamePaused := false)
    {
      loop := null;
      if roomId in rooms && rooms[roomId].IsFull() {
        var room := rooms[roomId];
        room.StartGame(dxPositive, dyPositive);
        loop := new RoomLoop(roomId, room, now);
      }
    }

    /**
     * `player_input` from `socketId`, whose connection keeps `throttle`.  For an existing room the
     * throttle decides; an accepted input moves the sender's paddle and, if the sender plays in
     * the room, yields the `paddle_update` with the paddle's new y.
     */
    method PlayerInput(throttle: InputThrottle, socketId: string, roomId: string, direction: string, now: int)
      returns (update: Option<PaddleUpdate>)
      requires Valid()
      modifies rooms.Values, throttle
      ensures Valid() && rooms == old(rooms) && order == old(order)
      ensures forall id :: id in rooms && id != roomId ==> unchanged(rooms[id])
      ensures roomId !in rooms ==> update == None && unchanged(throttle)
      ensures roomId in rooms ==>
        throttle.cooldowns == if Passes(old(throttle.LastInput(socketId)), now, InputGap)
                              then old(throttle.cooldowns)[socketId := now] else old(throttle.cooldowns)
      ensures (roomId in rooms &&
               (!Passes(old(throttle.LastInput(socketId)), now, InputGap) || socketId !in rooms[roomId].players))
        ==> update == None && unchanged(rooms[roomId])
      ensures (roomId in rooms && Passes(old(throttle.LastInput(socketId)), now, InputGap) &&
               socketId in rooms[roomId].players)
        ==>
        var room := rooms[roomId];
        var slot := room.players[socketId].playerNumber;
        var moved := old(room.PaddleOf(slot)).(y := MovePaddle(old(room.PaddleOf(slot).y), direction), lastUpdate := Some(now));
        && update == Some(PaddleUpdate(slot, moved.y, now))
        && room.State() == old(room.State()).(paddle1 := if slot == Player1 then moved else old(room.paddle1),
                                              paddle2 := if slot == Player2 then moved else old(room.paddle2))
    {
      update := None;
      if roomId in rooms {
        var room := rooms[roomId];
        var accepted := throttle.Admit(socketId, now);
        if accepted {
          room.UpdatePaddle(socketId, direction, now);
          if socketId in room.players {
            var slot := room.players[socketId].playerNumber;
            update := Some(PaddleUpdate(slot, room.PaddleOf(slot).y, now));
          }
        }
      }
    }

    /** `pause_game`: an existing room's paused flag flips, whatever its state, and the new flag is sent. */
    method PauseGame(roomId: string) returns (paused: Option<bool>)
      requires Valid()
      modifies rooms.Values
      ensures Valid() && rooms == old(rooms) && order == old(order)
      ensures forall id :: id in rooms && id != roomId ==> unchanged(rooms[id])
      ensures roomId !in rooms ==> paused == None
      ensures roomId in rooms ==>
        rooms[roomId].State() == old(rooms[roomId].State()).(gamePaused := !old(rooms[roomId].gamePaused)) &&
        paused == Some(rooms[roomId].gamePaused)
    {
      paused := None;
      if roomId in rooms {
        var room := rooms[roomId];
        room.PauseGame();
        paused := Some(room.gamePaused);
      }
    }

    /**
     * `disconnect`: the socket leaves the first room (in Map order) that holds it, stopping that
     * match; the room is deleted exactly when nobody is left.  Other rooms holding the same
     * socket keep it.
     */
    method Disconnect(socketId: string) returns (d: Departure)
      requires Valid()
      modifies this, rooms.Values
      ensures Valid()
      ensures d.NotInAnyRoom? <==> FirstHolding(old(order), old(Members()), socketId, 0).None?
      ensures d.NotInAnyRoom? ==> rooms == old(rooms) && order == old(order)
      ensures d.Left? ==>
        var i := FirstHolding(old(order), old(Members()), socketId, 0).value;
        i < |old(order)| && d.roomId == old(order)[i] && d.roomId in old(rooms) &&
        (d.roomDeleted ==> rooms == old(rooms) - {d.roomId} && order == RemoveAt(old(order), i))
      ensures d.Left? ==>
        var room := old(rooms)[d.roomId];
        room.State() == old(room.State()).(players := old(room.players) - {socketId}, gameRunning := false) &&
        (d.roomDeleted <==> room.players == map[]) &&
        (!d.roomDeleted ==> rooms == old(rooms) && order == old(order))
      ensures forall r :: r in old(rooms.Values) && (d.NotInAnyRoom? || r != old(rooms)[d.roomId]) ==> unchanged(r)
    {
      var found := FindHolder(socketId);
      if found.None? {
        return NotInAnyRoom;
      }
      var id := order[found.value];
      ghost var room := rooms[id];
      ghost var before := room.State();
      var deleted := LeaveRoomAt(found.value, socketId);
      assert room.State() == before.(players := before.players - {socketId}, gameRunning := false);
      d := Left(id, deleted);
    }

    /** The body of `disconnect`'s loop once it meets the room at position `i`. */
    method LeaveRoomAt(i: nat, socketId: string) returns (deleted: bool)
      requires Valid() && i < |order|
      modifies this, rooms.Values
      ensures Valid()
      ensures var room := old(rooms)[old(order)[i]];
        room.State() == old(room.State()).(players := old(room.players) - {socketId}, gameRunning := false) &&
        (deleted <==> room.players == map[])
      ensures deleted ==> rooms == old(rooms) - {old(order)[i]} && order == RemoveAt(old(order), i)
      ensures !deleted ==> rooms == old(rooms) && order == old(order)
      ensures forall r :: r in old(rooms.Values) && r != old(rooms)[old(order)[i]] ==> unchanged(r)
    {
      var id := order[i];
      var room := rooms[id];
      room.RemovePlayer(socketId);
      deleted := room.IsEmpty();
      if deleted {
        rooms := rooms - {id};
        RemoveAtDistinct(order, i);
        order := RemoveAt(order, i);
      }
    }

    /** The loop of `disconnect` up to its `break`: the first room, in Map order, that holds `socketId`. */
    method FindHolder(socketId: string) returns (found: Option<nat>)
      requires Valid()
      ensures found == FirstHolding(order, Members(), socketId, 0)
    {
      var i := 0;
      while i < |order| && socketId !in rooms[order[i]].players
        invariant 0 <= i <= |order|
        invariant FirstHolding(order, Members(), socketId, i) == FirstHolding(order, Members(), socketId, 0)
      {
        i := i + 1;
      }
      found := if i == |order| then None else Some(i);
    }

    /** `get_rooms`: the rooms with a free slot, in Map order, with their occupancy. */
    method GetRooms() returns (list: seq<RoomEntry>)
      requires Valid()
      ensures list == Joinable(order, Occupancy())
      ensures forall id :: id in rooms && |rooms[id].players| < 2 ==>
        RoomEntry(id, |rooms[id].players|) in list
      ensures forall e :: e in list ==>
        e.roomId in rooms && |rooms[e.roomId].players| < 2 && e.players == |rooms[e.roomId].players|
    {
      ghost var occupancy := Occupancy();
      list := [];
      var i := 0;
      while i < |order|
        invariant 0 <= i <= |order|
        invariant list == Joinable(order[..i], occupancy)
      {
        var room := rooms[order[i]];
        if !room.IsFull() {
          list := list + [RoomEntry(order[i], |room.players|)];
        }
        assert order[..i + 1][..i] == order[..i];
        i := i + 1;
      }
      assert order[..i] == order;
      forall id | id in rooms && |rooms[id].players| < 2
        ensures RoomEntry(id, |rooms[id].players|) in list
      {
        JoinableComplete(order, occupancy, id);
      }
    }
  }

  // ---------------------------------------------------------------------------------------
  // The per-connection input throttle: the `inputCooldowns` Map

  class InputThrottle {
    /** The time of the last accepted input, per socket id. */
    var cooldowns: map<string, int>

    constructor ()
      ensures cooldowns == map[]
    {
      cooldowns := map[];
    }

    /** The last accepted input of `socketId`; one never seen counts as accepted at time 0. */
    function LastInput(socketId: string): int
      reads this
    {
      if socketId in cooldowns then cooldowns[socketId] else 0
    }

    /** Decides whether an input of `socketId` at `now` is applied, and records it only if so. */
    method Admit(socketId: string, now: int) returns (accepted: bool)
      modifies this
      ensures accepted <==> now - old(LastInput(socketId)) >= InputGap
      ensures cooldowns == if accepted then old(cooldowns)[socketId := now] else old(cooldowns)
    {
      var lastInput := if socketId in cooldowns then cooldowns[socketId] else 0;
      accepted := now - lastInput >= 10;
      if accepted {
        cooldowns := cooldowns[socketId := now];
      }
    }

    /**
     * The `player_input` events of one socket arriving at `times`, one `Admit` each: the inputs
     * applied are exactly those `Admitted` picks, so they are at least 10 ms apart (`AdmittedSpaced`).
     * Other sockets' records are untouched.
     */
    method AdmitRun(socketId: string, times: seq<int>) returns (accepted: seq<int>)
      modifies this
      ensures accepted == Admitted(old(LastInput(socketId)), times, InputGap)
      ensures cooldowns - {socketId} == old(cooldowns) - {socketId}
    {
      accepted := [];
      var i := 0;
      while i < |times|
        invariant 0 <= i <= |times|
        invariant accepted + Admitted(LastInput(socketId), times[i..], InputGap) ==
                  Admitted(old(LastInput(socketId)), times, InputGap)
        invariant cooldowns - {socketId} == old(cooldowns) - {socketId}
      {
        AdmittedUnfold(LastInput(socketId), times[i..], InputGap);
        assert times[i..][1..] == times[i + 1..];
        var ok := Admit(socketId, times[i]);
        if ok {
          accepted := accepted + [times[i]];
        }
        i := i + 1;
      }
      assert times[i..] == [];
    }
  }

  // ---------------------------------------------------------------------------------------
  // The loop a started room runs (one firing of the `setInterval` callback)

  class RoomLoop {
    const roomId: string
    /** The room object the loop was started for; the loop never looks it up again. */
    const room: GameRoom
    var lastBallUpdate: int
    /** Set once the loop has cancelled itself; a cancelled interval never fires again. */
    var cleared: bool

    constructor (roomId: string, room: GameRoom, now: int)
      ensures this.roomId == roomId && this.room == room && lastBallUpdate == now && !cleared
    {
      this.roomId := roomId;
      this.room := room;
      lastBallUpdate := now;
      cleared := false;
    }

    /**
     * One firing at `now`.  The loop stops when no room is registered under its id or its room is
     * empty.  Otherwise, if at least 16 ms have passed since the last ball update, the ball is
     * updated (a score sends the new scores); the snapshot is sent either way.
     */
    method Fire(registry: Registry, now: int, dxPositive: bool, dyPositive: bool) returns (out: Firing)
      requires !cleared && room.Valid()
      modifies this, room
      ensures room.Valid()
      ensures old(roomId !in registry.rooms || room.IsEmpty()) ==>
        out == Stopped && cleared && lastBallUpdate == old(lastBallUpdate) && unchanged(room)
      ensures old(roomId in registry.rooms && !room.IsEmpty()) && !Passes(old(lastBallUpdate), now, BallGap) ==>
        !cleared && lastBallUpdate == old(lastBallUpdate) && unchanged(room) &&
        out == Fired(None, GameUpdate(room.ball, room.paddle1, room.paddle2, now))
      ensures old(roomId in registry.rooms && !room.IsEmpty()) && Passes(old(lastBallUpdate), now, BallGap) ==>
        !cleared && lastBallUpdate == now &&
        (if old(room.gameRunning) && !old(room.gamePaused) then
           var step := Advance(old(room.ball), old(room.paddle1), old(room.paddle2), old(room.scores), dxPositive, dyPositive);
           room.State() == old(room.State()).(ball := step.ball, scores := step.scores) &&
           out == Fired(if step.event.Some? then Some(step.scores) else None,
                        GameUpdate(step.ball, room.paddle1, room.paddle2, now))
         else
           unchanged(room) &&
           out == Fired(None, GameUpdate(room.ball, room.paddle1, room.paddle2, now)))
    {
      if roomId !in registry.rooms || room.IsEmpty() {
        cleared := true;
        return Stopped;
      }
      var scoreUpdate := None;
      if now - lastBallUpdate >= 16 {
        var scoreEvent := room.UpdateBall(dxPositive, dyPositive);
        lastBallUpdate := now;
        if scoreEvent.Some? {
          scoreUpdate := Some(room.scores);
        }
      }
      out := Fired(scoreUpdate, GameUpdate(room.ball, room.paddle1, room.paddle2, now));
    }
  }
}
