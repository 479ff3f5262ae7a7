// The room service as the object that owns the two maps and writes the records.

module RoomServices {
  import opened Board
  import opened Sessions
  import opened Rooms
  import opened RoomSteps
  import opened RoomSafety

  class RoomService {
    var rooms: map<RoomCode, Room>
    var sessions: map<SessionId, Stored>
    // Everything handed to the repository, oldest first.
    var records: seq<Record>

    function State(): Service
      reads this
    {
      Service(rooms, sessions)
    }

    // The object is in the state the step describes, having written what the step saves.
    predicate Took(before: seq<Record>, o: RoomOutcome, error: Option<RoomError>)
      reads this
    {
      State() == o.service && error == o.error && records == before + Written(o)
    }

    constructor ()
      ensures State() == Service(map[], map[]) && records == []
    {
      rooms, sessions, records := map[], map[], [];
    }

    // The private steps that the operations are made of.

    method Persist(code: RoomCode, t: Clock)
      requires code in rooms
      modifies this`rooms, this`records
      ensures rooms == old(rooms)[code := BeforeSave(old(rooms)[code], t)]
      ensures records == old(records) + [RecordOf(code, rooms[code], sessions)]
    {
      var room := rooms[code];
      if room.game.Some? && room.game.value.finished && room.abandonedDeadline.None? {
        rooms := rooms[code := room.(abandonedDeadline := Some(t.now + t.abandonedTtl))];
        SynchronizePresence(code);
      }
      records := records + [RecordOf(code, rooms[code], sessions)];
    }

    method SynchronizePresence(code: RoomCode)
      requires code in rooms
      modifies this`rooms
      ensures rooms == old(rooms)[code := SyncedIfPlaying(old(rooms)[code])]
    {
      var room := rooms[code];
      if room.game.None? {
        return;
      }
      var disconnected := GoneSeats(room.seats, 0);
      if !(exists k :: 0 <= k < |disconnected| && disconnected[k].replacementRequired) && !room.game.value.finished {
        room := room.(abandonedDeadline := None);
      }
      var game := room.game.value.(disconnectedSeats := disconnected, abandonedDeadline := room.abandonedDeadline);
      rooms := rooms[code := room.(game := Some(game))];
    }

    method TouchRoom(code: RoomCode, t: Clock)
      requires code in rooms
      modifies this`rooms
      ensures rooms == old(rooms)[code := Touched(old(rooms)[code], t)]
    {
      if rooms[code].game.None? {
        rooms := rooms[code := rooms[code].(idleDeadline := t.now + t.idleTtl)];
      }
    }

    method TransferExpiredHost(code: RoomCode)
      requires code in rooms
      modifies this`rooms
      ensures rooms == old(rooms)[code := TransferredHost(old(rooms)[code], sessions)]
    {
      var room := rooms[code];
      if room.game.None? || room.host in sessions {
        return;
      }
      var next := FirstConnected(room.seats, 0);
      if next.Some? {
        rooms := rooms[code := room.(host := next.value)];
      }
    }

    // Every Human seat of the Room gives up its session, then the Room goes.
    method CloseRoom(code: RoomCode)
      requires code in rooms
      modifies this`rooms, this`sessions
      ensures State() == WithoutRoom(old(State()), code)
    {
      var seats := rooms[code].seats;
      for i := 0 to |seats|
        invariant rooms == old(rooms)
        invariant sessions == map id | id in old(sessions) && !HoldsSession(seats[..i], id) :: old(sessions)[id]
      {
        HoldsOneMore(seats, i);
        if seats[i].HumanSeat? {
          sessions := sessions - {seats[i].session};
        }
      }
      assert seats[..|seats|] == seats;
      assert sessions == WithoutRoom(old(State()), code).sessions;
      rooms := rooms - {code};
    }

    // The operations.

    method CreateRoom(code: RoomCode, id: SessionId, digest: string, name: string, valid: bool, t: Clock)
      returns (error: Option<RoomError>)
      requires code !in rooms
      modifies this
      ensures Took(old(records), Create(old(State()), code, id, digest, name, valid, t), error)
    {
      hide RecordOf, BeforeSave, SyncedIfPlaying, TransferredHost, GoneSeats, FirstConnected, FirstEmpty, HoldsSession, AnyHuman,
        AnySession, NameTaken, StartReady, PresenceLifecycle, WithoutRoom;
      error := None;
      if |rooms| >= MAX_ROOMS {
        return Some(ServerBusy);
      }
      if !valid {
        return Some(InvalidDisplayName);
      }
      var room := Room(0, id, [NewHuman(id, name), EmptySeat, EmptySeat, EmptySeat], 0, None, None);
      rooms := rooms[code := room];
      sessions := sessions[id := Stored(code, 0, digest, None)];
      TouchRoom(code, t);
      Persist(code, t);
    }

    method JoinRoom(code: RoomCode, id: SessionId, digest: string, name: string, valid: bool, t: Clock)
      returns (error: Option<RoomError>)
      requires id !in sessions
      modifies this
      ensures Took(old(records), Join(old(State()), code, id, digest, name, valid, t), error)
    {
      hide RecordOf, BeforeSave, SyncedIfPlaying, Touched, TransferredHost, GoneSeats, FirstConnected, FirstEmpty, HoldsSession, AnyHuman,
        AnySession, NameTaken, StartReady, PresenceLifecycle, WithoutRoom;
      error := None;
      if code !in rooms {
        return Some(RoomNotFound);
      }
      var room := rooms[code];
      if room.game.Some? {
        return Some(RoomNotWaiting);
      }
      if !valid {
        return Some(InvalidDisplayName);
      }
      if NameTaken(room.seats, name) {
        return Some(DisplayNameTaken);
      }
      var available := FirstEmpty(room.seats, 0);
      if available.None? || available.value >= |room.seats| {
        return Some(RoomFull);
      }
      room := room.(seats := room.seats[available.value := NewHuman(id, name)], revision := room.revision + 1);
      rooms := rooms[code := room];
      sessions := sessions[id := Stored(code, available.value, digest, None)];
      TouchRoom(code, t);
      Persist(code, t);
    }

    // The timer of a disconnected session. One set for another deadline does nothing, an early
    // one is set again for what remains, and a session without a Room just goes.
    method ExpireDisconnectedSession(id: SessionId, expected: int, t: Clock) returns (again: Option<int>)
      requires id in sessions && sessions[id].roomCode in rooms ==> IsMember(State(), id)
      modifies this
      ensures var due := old(id in sessions && sessions[id].deadline == Some(expected));
              && again == (if due && t.now < expected then Some(expected - t.now) else None)
              && (if !due || t.now < expected then Took(old(records), RoomOutcome(old(State()), None, None), None)
                  else if old(IsMember(State(), id)) then Took(old(records), Expire(old(State()), id, t), None)
                  else State() == Service(old(rooms), old(sessions) - {id}) && records == old(records))
    {
      hide RecordOf, BeforeSave, SyncedIfPlaying, Touched, TransferredHost, GoneSeats, FirstConnected, FirstEmpty, HoldsSession, AnyHuman,
        AnySession, NameTaken, StartReady, PresenceLifecycle, WithoutRoom;
      again := None;
      if id !in sessions || sessions[id].deadline != Some(expected) {
        return;
      }
      if t.now < expected {
        return Some(expected - t.now);
      }
      var session := sessions[id];
      var code := session.roomCode;
      if code !in rooms {
        sessions := sessions - {id};
        return;
      }
      var room := rooms[code];
      if room.game.None? {
        RemoveSessionAndSeat(id, t);
        return;
      }
      sessions := sessions - {id};
      room := room.(seats := room.seats[session.seat := room.seats[session.seat].(connection := Disconnected)], revision := room.revision + 1);
      rooms := rooms[code := room];
      if !AnySession(room.seats, sessions) {
        ghost var leaving := State();
        CloseRoom(code);
        SameMembers(old(State()), room.seats, id);
        ClosedAlike(old(State()), leaving, code, id);
        return;
      }
      TransferExpiredHost(code);
      if rooms[code].abandonedDeadline.None? {
        rooms := rooms[code := rooms[code].(abandonedDeadline := Some(t.now + t.abandonedTtl))];
      }
      SynchronizePresence(code);
      Persist(code, t);
    }

    // Giving up a lobby seat; without a connected heir the Room closes.
    method RemoveSessionAndSeat(id: SessionId, t: Clock)
      requires IsMember(State(), id) && rooms[sessions[id].roomCode].game.None?
      modifies this
      ensures Took(old(records), Vacated(old(State()), old(sessions[id].roomCode), old(sessions[id].seat), id, t), None)
    {
      hide RecordOf, BeforeSave, SyncedIfPlaying, Touched, TransferredHost, GoneSeats, FirstConnected, FirstEmpty, HoldsSession, AnyHuman,
        AnySession, NameTaken, StartReady, PresenceLifecycle, WithoutRoom;
      var session := sessions[id];
      var code := session.roomCode;
      sessions := sessions - {id};
      var room := rooms[code];
      room := room.(seats := room.seats[session.seat := EmptySeat], revision := room.revision + 1);
      rooms := rooms[code := room];
      ghost var leaving := State();
      OneMemberLess(old(State()), id);
      ClosedAlike(old(State()), leaving, code, id);
      if !AnyHuman(room.seats) {
        CloseRoom(code);
        return;
      }
      if room.host == id {
        var next := FirstConnected(room.seats, 0);
        if next.None? {
          CloseRoom(code);
          return;
        }
        rooms := rooms[code := room.(host := next.value)];
      }
      TouchRoom(code, t);
      Persist(code, t);
    }

    method ResumeSession(code: RoomCode, id: SessionId, seatId: nat, digest: string, t: Clock) returns (error: Option<RoomError>)
      modifies this
      ensures Took(old(records), Resume(old(State()), code, id, seatId, digest, t), error)
      ensures id !in old(sessions) || old(sessions)[id].roomCode != code || old(sessions)[id].seat != seatId
              || old(sessions)[id].tokenDigest != digest ==>
                error == Some(SessionInvalid) && State() == old(State()) && records == old(records)
    {
      hide RecordOf, BeforeSave, SyncedIfPlaying, Touched, TransferredHost, GoneSeats, FirstConnected, FirstEmpty, HoldsSession, AnyHuman,
        AnySession, NameTaken, StartReady, PresenceLifecycle, WithoutRoom;
      error := None;
      if !IsMember(State(), id) || sessions[id].roomCode != code || sessions[id].seat != seatId || sessions[id].tokenDigest != digest {
        return Some(SessionInvalid);
      }
      if sessions[id].deadline.Some? && t.now >= sessions[id].deadline.value {
        var again := ExpireDisconnectedSession(id, sessions[id].deadline.value, t);
        return Some(SessionInvalid);
      }
      var room := rooms[code];
      var seat := room.seats[seatId];
      sessions := sessions[id := sessions[id].(deadline := None)];
      if seat.connection != Connected {
        room := room.(seats := room.seats[seatId := seat.(connection := Connected, deadline := None)], revision := room.revision + 1);
        rooms := rooms[code := room];
      }
      TransferExpiredHost(code);
      SynchronizePresence(code);
      TouchRoom(code, t);
      Persist(code, t);
    }

    method MarkSessionDisconnected(id: SessionId, t: Clock) returns (error: Option<RoomError>)
      modifies this
      ensures Took(old(records), MarkDisconnected(old(State()), id, t), error)
    {
      hide RecordOf, BeforeSave, SyncedIfPlaying, Touched, TransferredHost, GoneSeats, FirstConnected, FirstEmpty, HoldsSession, AnyHuman,
        AnySession, NameTaken, StartReady, PresenceLifecycle, WithoutRoom;
      error := None;
      if !IsMember(State(), id) {
        return Some(NotMember);
      }
      var session := sessions[id];
      var code := session.roomCode;
      var room := rooms[code];
      var seat := room.seats[session.seat];
      if seat.connection == Reconnecting {
        Persist(code, t);
        return;
      }
      var deadline := Some(t.now + t.reconnectGrace);
      rooms := rooms[code := room.(
        seats := room.seats[session.seat := seat.(connection := Reconnecting, deadline := deadline)], revision := room.revision + 1)];
      sessions := sessions[id := session.(deadline := deadline)];
      SynchronizePresence(code);
      Persist(code, t);
    }

    method SetSeatReady(id: SessionId, revision: nat, ready: bool, t: Clock) returns (error: Option<RoomError>)
      modifies this
      ensures Took(old(records), SetReady(old(State()), id, revision, ready, t), error)
    {
      hide RecordOf, BeforeSave, SyncedIfPlaying, TransferredHost, GoneSeats, FirstConnected, FirstEmpty, HoldsSession, AnyHuman,
        AnySession, NameTaken, StartReady, PresenceLifecycle, WithoutRoom;
      error := None;
      if !IsMember(State(), id) {
        return Some(NotMember);
      }
      var code, i := sessions[id].roomCode, sessions[id].seat;
      if rooms[code].game.Some? {
        return Some(RoomNotWaiting);
      }
      if rooms[code].revision != revision {
        return Some(RevisionConflict);
      }
      var seat := rooms[code].seats[i];
      if seat.connection != Connected {
        return Some(NotMember);
      }
      TouchRoom(code, t);
      if seat.ready != ready {
        var room := rooms[code];
        rooms := rooms[code := room.(seats := room.seats[i := seat.(ready := ready)], revision := room.revision + 1)];
      }
      Persist(code, t);
    }

    method SetAi(id: SessionId, revision: nat, i: nat, profile: Option<ProfileId>, t: Clock) returns (error: Option<RoomError>)
      modifies this
      ensures Took(old(records), SetAiSeat(old(State()), id, revision, i, profile, t), error)
    {
      hide RecordOf, BeforeSave, SyncedIfPlaying, TransferredHost, GoneSeats, FirstConnected, FirstEmpty, HoldsSession, AnyHuman,
        AnySession, NameTaken, StartReady, PresenceLifecycle, WithoutRoom;
      error := None;
      if !IsMember(State(), id) {
        return Some(NotMember);
      }
      var code := sessions[id].roomCode;
      if rooms[code].game.Some? {
        return Some(RoomNotWaiting);
      }
      if rooms[code].host != id {
        return Some(NotHost);
      }
      if rooms[code].revision != revision {
        return Some(RevisionConflict);
      }
      if i >= |rooms[code].seats| || rooms[code].seats[i].HumanSeat? {
        return Some(SeatUnavailable);
      }
      TouchRoom(code, t);
      var wanted := if profile.None? then EmptySeat else AiSeat(profile.value);
      if rooms[code].seats[i] != wanted {
        var room := rooms[code];
        rooms := rooms[code := room.(seats := room.seats[i := wanted], revision := room.revision + 1)];
      }
      Persist(code, t);
    }

    method LeaveRoom(id: SessionId, t: Clock) returns (error: Option<RoomError>)
      modifies this
      ensures Took(old(records), Leave(old(State()), id, t), error)
    {
      hide RecordOf, BeforeSave, SyncedIfPlaying, Touched, TransferredHost, GoneSeats, FirstConnected, FirstEmpty, HoldsSession, AnyHuman,
        AnySession, NameTaken, StartReady, PresenceLifecycle, WithoutRoom;
      error := None;
      if !IsMember(State(), id) {
        return Some(NotMember);
      }
      if rooms[sessions[id].roomCode].game.Some? {
        return Some(RoomNotWaiting);
      }
      VacatedHasNoError(State(), sessions[id].roomCode, sessions[id].seat, id, t);
      RemoveSessionAndSeat(id, t);
    }

    method RequestStart(id: SessionId, revision: nat, gameId: string, cacheLimit: nat, t: Clock) returns (error: Option<RoomError>)
      modifies this
      ensures Took(old(records), Start(old(State()), id, revision, gameId, cacheLimit, t), error)
    {
      hide RecordOf, BeforeSave, SyncedIfPlaying, Touched, TransferredHost, GoneSeats, FirstConnected, FirstEmpty, HoldsSession, AnyHuman,
        AnySession, NameTaken, StartReady, PresenceLifecycle, WithoutRoom;
      error := None;
      if !IsMember(State(), id) {
        return Some(NotMember);
      }
      var code := sessions[id].roomCode;
      var room := rooms[code];
      if room.host != id {
        return Some(NotHost);
      }
      if room.game.Some? {
        return Some(RoomNotWaiting);
      }
      if room.revision != revision {
        return Some(RevisionConflict);
      }
      if !StartReady(room.seats) {
        return Some(StartConditionsNotMet);
      }
      var game := RoomGame(gameId, room.seats, map[], [], None, 0, false, false, cacheLimit, map[]);
      rooms := rooms[code := room.(game := Some(game), revision := room.revision + 1)];
      Persist(code, t);
    }

    method ReplaceExpiredHuman(id: SessionId, gameId: string, revision: nat, i: nat, profile: ProfileId, t: Clock)
      returns (error: Option<RoomError>)
      modifies this
      ensures Took(old(records), ReplaceExpired(old(State()), id, gameId, revision, i, profile, t), error)
    {
      hide RecordOf, BeforeSave, SyncedIfPlaying, Touched, TransferredHost, GoneSeats, FirstConnected, FirstEmpty, HoldsSession, AnyHuman,
        AnySession, NameTaken, StartReady, PresenceLifecycle, WithoutRoom;
      error := HostAuthority(State(), id, gameId, revision);
      if error.Some? {
        return;
      }
      var code := sessions[id].roomCode;
      var room := rooms[code];
      if i >= |room.seats| || !room.seats[i].HumanSeat? || room.seats[i].connection != Disconnected {
        return Some(ReplacementNotAvailable);
      }
      var game := room.game.value;
      game := game.(replacements := game.replacements[i := profile], cache := game.cache - {room.seats[i].session});
      rooms := rooms[code := room.(seats := room.seats[i := AiSeat(profile)], game := Some(game), revision := room.revision + 1)];
      SynchronizePresence(code);
      Persist(code, t);
    }
  }

  lemma HoldsOneMore(seats: seq<Seat>, i: nat)
    requires i < |seats|
    ensures forall id :: HoldsSession(seats[..i + 1], id) <==>
                         HoldsSession(seats[..i], id) || (seats[i].HumanSeat? && seats[i].session == id)
  {
    forall id
      ensures HoldsSession(seats[..i + 1], id) <==> HoldsSession(seats[..i], id) || (seats[i].HumanSeat? && seats[i].session == id)
    {
      var longer, shorter := seats[..i + 1], seats[..i];
      if HoldsSession(shorter, id) {
        var n :| 0 <= n < |shorter| && shorter[n].HumanSeat? && shorter[n].session == id;
        assert longer[n] == shorter[n];
      }
      if HoldsSession(longer, id) {
        var n :| 0 <= n < |longer| && longer[n].HumanSeat? && longer[n].session == id;
        assert n < i ==> shorter[n] == longer[n];
      }
      assert longer[i] == seats[i];
    }
  }

  // Closing right after a member has gone closes the Room as it was.
  lemma ClosedAlike(before: Service, leaving: Service, code: RoomCode, id: SessionId)
    requires code in before.rooms && code in leaving.rooms
    requires leaving.rooms == before.rooms[code := leaving.rooms[code]] && leaving.sessions == before.sessions - {id}
    requires forall other :: HoldsSession(before.rooms[code].seats, other) <==>
                             other == id || HoldsSession(leaving.rooms[code].seats, other)
    ensures WithoutRoom(leaving, code) == WithoutRoom(before, code)
  {
    hide HoldsSession;
    assert leaving.rooms - {code} == before.rooms - {code};
  }

  lemma SameMembers(before: Service, seats: seq<Seat>, id: SessionId)
    requires IsMember(before, id)
    requires var room, i := before.rooms[before.sessions[id].roomCode], before.sessions[id].seat;
             seats == room.seats[i := room.seats[i].(connection := Disconnected)]
    ensures forall other :: HoldsSession(before.rooms[before.sessions[id].roomCode].seats, other) <==>
                            other == id || HoldsSession(seats, other)
  {
    var room, i := before.rooms[before.sessions[id].roomCode], before.sessions[id].seat;
    forall other ensures HoldsSession(room.seats, other) <==> other == id || HoldsSession(seats, other) {
      HeldStays(room.seats, seats, i, other);
      assert room.seats[i].session == id;
    }
  }

  lemma OneMemberLess(before: Service, id: SessionId)
    requires IsMember(before, id)
    ensures var room, i := before.rooms[before.sessions[id].roomCode], before.sessions[id].seat;
            forall other :: HoldsSession(room.seats, other) <==> other == id || HoldsSession(room.seats[i := EmptySeat], other)
  {
    var room, i := before.rooms[before.sessions[id].roomCode], before.sessions[id].seat;
    var seats := room.seats[i := EmptySeat];
    forall other ensures HoldsSession(room.seats, other) <==> other == id || HoldsSession(seats, other) {
      assert room.seats[i].session == id;
      if HoldsSession(seats, other) {
        var n :| 0 <= n < |seats| && seats[n].HumanSeat? && seats[n].session == other;
        assert room.seats[n] == seats[n];
      }
      if HoldsSession(room.seats, other) && other != id {
        var n :| 0 <= n < |room.seats| && room.seats[n].HumanSeat? && room.seats[n].session == other;
        assert seats[n] == room.seats[n];
      }
    }
  }

  lemma VacatedHasNoError(s: Service, code: RoomCode, i: nat, id: SessionId, t: Clock)
    requires code in s.rooms && i < |s.rooms[code].seats|
    ensures Vacated(s, code, i, id, t).error.None?
  {
  }

  // A service that satisfies the invariant and has only ever written valid records.
  ghost predicate Sound(state: Service, records: seq<Record>) {
    Inv(state) && forall k :: 0 <= k < |records| ==> AggregateValid(records[k])
  }

  // Taking any step keeps it so.
  lemma StepsKeepSound(state: Service, records: seq<Record>, step: Step, t: Clock)
    requires Sound(state, records) && Possible(state, step)
    ensures Sound(Take(state, step, t).service, records + Written(Take(state, step, t)))
  {
    hide Inv, AggregateValid, RecordOf, Take, Possible;
    StepIsGood(state, step, t);
  }
}
