// Rooms: seats, sessions, host and presence, and the aggregate every saved record must satisfy.

module Rooms {
  import opened Board
  import opened Sessions

  type RoomCode = string

  const SEATS := 4
  const MAX_ROOMS := 64

  datatype Connection = Connected | Reconnecting | Disconnected

  // Seats are numbered in canonical order.
  datatype Seat =
    | EmptySeat
    | HumanSeat(session: SessionId, displayName: string, ready: bool, connection: Connection, deadline: Option<int>)
    | AiSeat(profile: ProfileId)

  datatype SeatGone = SeatGone(seat: nat, deadline: Option<int>, replacementRequired: bool)

  datatype CachedResult = CachedResult(commandId: string, stateVersion: int)

  // What a Room needs to know of its game.
  datatype RoomGame = RoomGame(
    gameId: string,
    originalSeats: seq<Seat>,
    replacements: map<nat, ProfileId>,
    disconnectedSeats: seq<SeatGone>,
    abandonedDeadline: Option<int>,
    stateVersion: int,
    finished: bool,
    failed: bool,
    cacheLimit: nat,
    cache: map<SessionId, seq<CachedResult>>)

  datatype Room = Room(
    revision: nat,
    host: SessionId,
    seats: seq<Seat>,
    idleDeadline: int,
    abandonedDeadline: Option<int>,
    game: Option<RoomGame>)

  datatype Stored = Stored(roomCode: RoomCode, seat: nat, tokenDigest: string, deadline: Option<int>)

  // The durable record.

  datatype SavedSession = SavedSession(session: SessionId, seat: nat, tokenDigest: string, deadline: Option<int>)

  datatype Record = Record(
    roomCode: RoomCode, revision: nat, host: SessionId, seats: seq<Seat>, idleDeadline: int, abandonedDeadline: Option<int>,
    sessions: seq<SavedSession>, game: Option<RoomGame>)

  function SavedSessions(seats: seq<Seat>, sessions: map<SessionId, Stored>, i: nat): seq<SavedSession>
    requires i <= |seats|
    decreases |seats| - i
  {
    if i == |seats| then []
    else
      (if seats[i].HumanSeat? && seats[i].session in sessions
       then [SavedSession(seats[i].session, i, sessions[seats[i].session].tokenDigest, sessions[seats[i].session].deadline)]
       else [])
      + SavedSessions(seats, sessions, i + 1)
  }

  function RecordOf(code: RoomCode, room: Room, sessions: map<SessionId, Stored>): Record {
    Record(code, room.revision, room.host, room.seats, room.idleDeadline, room.abandonedDeadline,
           SavedSessions(room.seats, sessions, 0), room.game)
  }

  ghost predicate HasSaved(record: Record, id: SessionId) {
    exists k :: 0 <= k < |record.sessions| && record.sessions[k].session == id
  }

  datatype RecordLifecycle = RecordFinished | RecordError | RecordPausedReplacement | RecordPausedReconnecting | RecordActive

  // The lifecycle the seats call for.
  function SeatLifecycle(record: Record): RecordLifecycle
    requires record.game.Some?
  {
    if record.game.value.finished then RecordFinished
    else if record.game.value.failed then RecordError
    else if exists i :: 0 <= i < |record.seats| && record.seats[i].HumanSeat? && record.seats[i].connection == Disconnected
      then RecordPausedReplacement
    else if exists i :: 0 <= i < |record.seats| && record.seats[i].HumanSeat? && record.seats[i].connection == Reconnecting
      then RecordPausedReconnecting
    else RecordActive
  }

  // The lifecycle the game's own presence reports.
  function PresenceLifecycle(game: RoomGame): RecordLifecycle {
    if game.finished then RecordFinished
    else if game.failed then RecordError
    else if exists k :: 0 <= k < |game.disconnectedSeats| && game.disconnectedSeats[k].replacementRequired
      then RecordPausedReplacement
    else if game.disconnectedSeats != [] then RecordPausedReconnecting
    else RecordActive
  }

  function AwayCount(seats: seq<Seat>, i: nat): nat
    requires i <= |seats|
    decreases |seats| - i
  {
    if i == |seats| then 0
    else (if seats[i].HumanSeat? && seats[i].connection != Connected then 1 else 0) + AwayCount(seats, i + 1)
  }

  // The aggregate relationships the record validation demands.
  ghost predicate AggregateValid(record: Record) {
    && |record.seats| == SEATS
    && (forall j, k :: 0 <= j < k < |record.sessions| ==>
          record.sessions[j].session != record.sessions[k].session && record.sessions[j].seat != record.sessions[k].seat)
    && (forall i, j :: 0 <= i < j < SEATS && record.seats[i].HumanSeat? && record.seats[j].HumanSeat? ==>
          record.seats[i].session != record.seats[j].session)
    && (exists i :: 0 <= i < SEATS && record.seats[i].HumanSeat? && record.seats[i].session == record.host)
    && record.sessions != []
    && (forall i: nat :: i < SEATS && record.seats[i].HumanSeat? ==> RecordSeatValid(record, i))
    && (forall k :: 0 <= k < |record.sessions| ==>
          && record.sessions[k].seat < SEATS
          && record.seats[record.sessions[k].seat].HumanSeat?
          && record.seats[record.sessions[k].seat].session == record.sessions[k].session)
    && (if record.game.None? then
          && record.abandonedDeadline.None?
          && (forall i :: 0 <= i < SEATS && record.seats[i].HumanSeat? ==> record.seats[i].connection != Disconnected)
        else GameValid(record))
  }

  ghost predicate RecordSeatValid(record: Record, i: nat)
    requires i < |record.seats| && record.seats[i].HumanSeat?
  {
    var seat := record.seats[i];
    && (seat.connection == Connected <==> seat.deadline.None?)
    && (seat.connection == Disconnected <==> !HasSaved(record, seat.session))
    && (forall k :: 0 <= k < |record.sessions| && record.sessions[k].session == seat.session ==>
          record.sessions[k].seat == i && record.sessions[k].deadline == seat.deadline)
  }

  ghost predicate GameValid(record: Record)
    requires record.game.Some? && |record.seats| == SEATS
  {
    var game := record.game.value;
    && (forall i :: 0 <= i < SEATS ==> !record.seats[i].EmptySeat?)
    && game.abandonedDeadline == record.abandonedDeadline
    && PresenceLifecycle(game) == SeatLifecycle(record)
    && OriginalsValid(record.seats, game)
    && |game.disconnectedSeats| == AwayCount(record.seats, 0)
    && (forall k :: 0 <= k < |game.disconnectedSeats| ==>
          var gone := game.disconnectedSeats[k];
          && gone.seat < SEATS && record.seats[gone.seat].HumanSeat? && record.seats[gone.seat].connection != Connected
          && gone.deadline == record.seats[gone.seat].deadline
          && gone.replacementRequired == (record.seats[gone.seat].connection == Disconnected))
    && CachesValid(record.seats, game)
  }

  ghost predicate OriginalsValid(seats: seq<Seat>, game: RoomGame)
    requires |seats| == SEATS
  {
    && |game.originalSeats| == SEATS
    && (exists i, j :: 0 <= i < j < SEATS && game.originalSeats[i].HumanSeat? && game.originalSeats[j].HumanSeat?)
    && (forall i, j :: 0 <= i < j < SEATS && game.originalSeats[i].HumanSeat? && game.originalSeats[j].HumanSeat? ==>
          game.originalSeats[i].session != game.originalSeats[j].session)
    && (forall i: nat :: i < SEATS ==> SeatFollows(game.originalSeats[i], seats[i], i, game.replacements))
  }

  // A seat holds its original occupant, or the AI that replaced a Human.
  predicate SeatFollows(original: Seat, current: Seat, i: nat, replacements: map<nat, ProfileId>) {
    match original
    case EmptySeat => false
    case AiSeat(profile) => current == AiSeat(profile) && i !in replacements
    case HumanSeat(session, displayName, _, _, _) =>
      if i in replacements then current == AiSeat(replacements[i])
      else current.HumanSeat? && current.session == session && current.displayName == displayName
  }

  predicate HoldsSession(seats: seq<Seat>, id: SessionId) {
    exists i :: 0 <= i < |seats| && seats[i].HumanSeat? && seats[i].session == id
  }

  ghost predicate CachesValid(seats: seq<Seat>, game: RoomGame) {
    forall id :: id in game.cache ==> HoldsSession(seats, id) && CacheValid(game.cache[id], game.cacheLimit, game.stateVersion)
  }

  ghost predicate CacheValid(entries: seq<CachedResult>, limit: nat, stateVersion: int) {
    && |entries| <= limit
    && (forall j, k :: 0 <= j < k < |entries| ==> entries[j].commandId != entries[k].commandId)
    && (forall k :: 0 <= k < |entries| ==> entries[k].stateVersion <= stateVersion)
  }

  // The invariant between operations.

  ghost predicate SeatsInv(code: RoomCode, room: Room, sessions: map<SessionId, Stored>) {
    && |room.seats| == SEATS
    && (forall i, j :: 0 <= i < j < SEATS && room.seats[i].HumanSeat? && room.seats[j].HumanSeat? ==>
          room.seats[i].session != room.seats[j].session)
    && HoldsSession(room.seats, room.host)
    && (exists i :: 0 <= i < SEATS && room.seats[i].HumanSeat? && room.seats[i].session in sessions)
    && (forall i: nat :: i < SEATS && room.seats[i].HumanSeat? ==> SeatMatches(code, i, room.seats[i], sessions))
    && (room.game.None? ==>
          && room.abandonedDeadline.None?
          && (forall i :: 0 <= i < SEATS && room.seats[i].HumanSeat? ==> room.seats[i].connection != Disconnected))
    && (room.game.Some? ==>
          && (forall i :: 0 <= i < SEATS ==> !room.seats[i].EmptySeat?)
          && OriginalsValid(room.seats, room.game.value) && CachesValid(room.seats, room.game.value))
  }

  predicate SeatMatches(code: RoomCode, i: nat, seat: Seat, sessions: map<SessionId, Stored>)
    requires seat.HumanSeat?
  {
    && (seat.connection == Connected <==> seat.deadline.None?)
    && (seat.connection == Disconnected <==> seat.session !in sessions)
    && (seat.session in sessions ==>
          var stored := sessions[seat.session];
          stored.roomCode == code && stored.seat == i && stored.deadline == seat.deadline)
  }

  function GoneSeats(seats: seq<Seat>, i: nat): seq<SeatGone>
    requires i <= |seats|
    decreases |seats| - i
  {
    if i == |seats| then []
    else
      (if seats[i].HumanSeat? && seats[i].connection != Connected
       then [SeatGone(i, seats[i].deadline, seats[i].connection == Disconnected)] else [])
      + GoneSeats(seats, i + 1)
  }

  // The game's presence is the seats'.
  predicate PresenceInv(room: Room) {
    room.game.Some? ==>
      && room.game.value.disconnectedSeats == GoneSeats(room.seats, 0)
      && room.game.value.abandonedDeadline == room.abandonedDeadline
  }

  // The clauses below are looked up by Room and by session, so that a proof opens only those
  // it is about.

  ghost predicate RoomInv(code: RoomCode, room: Room, sessions: map<SessionId, Stored>) {
    SeatsInv(code, room, sessions) && PresenceInv(room)
  }

  // A stored session sits on the seat it names.
  predicate StoredRight(rooms: map<RoomCode, Room>, stored: Stored, id: SessionId) {
    && stored.roomCode in rooms
    && stored.seat < |rooms[stored.roomCode].seats|
    && rooms[stored.roomCode].seats[stored.seat].HumanSeat?
    && rooms[stored.roomCode].seats[stored.seat].session == id
  }

  ghost predicate SessionsInv(rooms: map<RoomCode, Room>, sessions: map<SessionId, Stored>) {
    forall id {:trigger StoredRight(rooms, sessions[id], id)} :: id in sessions ==> StoredRight(rooms, sessions[id], id)
  }

  ghost predicate ServiceInv(rooms: map<RoomCode, Room>, sessions: map<SessionId, Stored>) {
    && (forall code {:trigger RoomInv(code, rooms[code], sessions)} :: code in rooms ==> RoomInv(code, rooms[code], sessions))
    && SessionsInv(rooms, sessions)
  }

  // The invariant is what the record needs.

  predicate SavedRight(seats: seq<Seat>, sessions: map<SessionId, Stored>, saved: SavedSession, i: nat) {
    && i <= saved.seat < |seats| && seats[saved.seat].HumanSeat?
    && seats[saved.seat].session == saved.session && saved.session in sessions
    && saved.deadline == sessions[saved.session].deadline
  }

  function SavedAt(seats: seq<Seat>, sessions: map<SessionId, Stored>, i: nat): seq<SavedSession>
    requires i < |seats|
  {
    if seats[i].HumanSeat? && seats[i].session in sessions
    then [SavedSession(seats[i].session, i, sessions[seats[i].session].tokenDigest, sessions[seats[i].session].deadline)]
    else []
  }

  lemma SavedUnfold(seats: seq<Seat>, sessions: map<SessionId, Stored>, i: nat)
    requires i < |seats|
    ensures SavedSessions(seats, sessions, i) == SavedAt(seats, sessions, i) + SavedSessions(seats, sessions, i + 1)
  {
  }

  lemma {:induction false} SavedAreRight(seats: seq<Seat>, sessions: map<SessionId, Stored>, i: nat)
    requires i <= |seats|
    ensures var saved := SavedSessions(seats, sessions, i);
            && (forall k :: 0 <= k < |saved| ==> SavedRight(seats, sessions, saved[k], i))
            && (forall j, k :: 0 <= j < k < |saved| ==> saved[j].seat < saved[k].seat)
    decreases |seats| - i
  {
    if i < |seats| {
      SavedAreRight(seats, sessions, i + 1);
      SavedUnfold(seats, sessions, i);
      var first, rest := SavedAt(seats, sessions, i), SavedSessions(seats, sessions, i + 1);
      assert forall k :: 0 <= k < |first| ==> SavedRight(seats, sessions, first[k], i) && first[k].seat == i;
      hide SavedSessions, SavedAt;
      assert forall k :: 0 <= k < |rest| ==> SavedRight(seats, sessions, rest[k], i + 1) && rest[k].seat > i;
    }
  }

  lemma {:induction false} SavedCovers(seats: seq<Seat>, sessions: map<SessionId, Stored>, i: nat, n: nat) returns (k: nat)
    requires i <= n < |seats| && seats[n].HumanSeat? && seats[n].session in sessions
    ensures k < |SavedSessions(seats, sessions, i)| && SavedSessions(seats, sessions, i)[k].session == seats[n].session
    decreases n - i
  {
    if n == i {
      k := 0;
    } else {
      k := SavedCovers(seats, sessions, i + 1, n);
      k := k + |SavedSessions(seats, sessions, i)| - |SavedSessions(seats, sessions, i + 1)|;
    }
  }

  predicate GoneRight(seats: seq<Seat>, gone: SeatGone, i: nat) {
    && i <= gone.seat < |seats| && seats[gone.seat].HumanSeat? && seats[gone.seat].connection != Connected
    && gone.deadline == seats[gone.seat].deadline
    && gone.replacementRequired == (seats[gone.seat].connection == Disconnected)
  }

  lemma {:induction false} GoneAreRight(seats: seq<Seat>, i: nat)
    requires i <= |seats|
    ensures var gone := GoneSeats(seats, i);
            && |gone| == AwayCount(seats, i)
            && (forall k :: 0 <= k < |gone| ==> GoneRight(seats, gone[k], i))
    decreases |seats| - i
  {
    if i < |seats| {
      GoneAreRight(seats, i + 1);
      var rest, gone := GoneSeats(seats, i + 1), GoneSeats(seats, i);
      forall k | 0 <= k < |gone| ensures GoneRight(seats, gone[k], i) {
        if k >= |gone| - |rest| {
          assert GoneRight(seats, rest[k - (|gone| - |rest|)], i + 1);
        }
      }
    }
  }

  lemma {:induction false} GoneCovers(seats: seq<Seat>, i: nat, n: nat) returns (k: nat)
    requires i <= n < |seats| && seats[n].HumanSeat? && seats[n].connection != Connected
    ensures k < |GoneSeats(seats, i)| && GoneSeats(seats, i)[k].seat == n
    decreases n - i
  {
    if n == i {
      k := 0;
    } else {
      k := GoneCovers(seats, i + 1, n);
      k := k + |GoneSeats(seats, i)| - |GoneSeats(seats, i + 1)|;
    }
  }

  // Some seat is gone for good exactly when its presence says so.
  lemma ReplacementAgrees(seats: seq<Seat>)
    ensures (exists k :: 0 <= k < |GoneSeats(seats, 0)| && GoneSeats(seats, 0)[k].replacementRequired)
        <==> exists i :: 0 <= i < |seats| && seats[i].HumanSeat? && seats[i].connection == Disconnected
  {
    GoneAreRight(seats, 0);
    hide GoneSeats, AwayCount;
    var gone := GoneSeats(seats, 0);
    if k :| 0 <= k < |gone| && gone[k].replacementRequired {
      assert GoneRight(seats, gone[k], 0);
    }
    if i :| 0 <= i < |seats| && seats[i].HumanSeat? && seats[i].connection == Disconnected {
      var k := GoneCovers(seats, 0, i);
      assert GoneRight(seats, gone[k], 0);
    }
  }

  lemma AwayAgrees(seats: seq<Seat>)
    ensures GoneSeats(seats, 0) != [] <==> exists i :: 0 <= i < |seats| && seats[i].HumanSeat? && seats[i].connection != Connected
  {
    GoneAreRight(seats, 0);
    hide GoneSeats, AwayCount;
    var gone := GoneSeats(seats, 0);
    if gone != [] {
      assert GoneRight(seats, gone[0], 0);
    }
    if i :| 0 <= i < |seats| && seats[i].HumanSeat? && seats[i].connection != Connected {
      var k := GoneCovers(seats, 0, i);
    }
  }

  lemma LifecyclesAgree(record: Record)
    requires record.game.Some? && record.game.value.disconnectedSeats == GoneSeats(record.seats, 0)
    ensures PresenceLifecycle(record.game.value) == SeatLifecycle(record)
  {
    ReplacementAgrees(record.seats);
    AwayAgrees(record.seats);
    hide GoneSeats;
    if i :| 0 <= i < |record.seats| && record.seats[i].HumanSeat? && record.seats[i].connection == Reconnecting {
      assert record.seats[i].connection != Connected;
    }
  }

  // What the service keeps is what the validation demands.
  lemma RecordIsValid(code: RoomCode, room: Room, sessions: map<SessionId, Stored>)
    requires SeatsInv(code, room, sessions) && PresenceInv(room)
    ensures AggregateValid(RecordOf(code, room, sessions))
  {
    hide OriginalsValid, CachesValid, SavedSessions, GoneSeats, AwayCount, PresenceLifecycle, SeatLifecycle, GameValid, HasSaved;
    var record := RecordOf(code, room, sessions);
    RecordSessionsValid(code, room, sessions);
    RecordSeatsValid(code, room, sessions);
    if room.game.Some? {
      RecordGameValid(code, room, sessions);
    }
    var h :| 0 <= h < |room.seats| && room.seats[h].HumanSeat? && room.seats[h].session == room.host;
  }

  lemma RecordGameValid(code: RoomCode, room: Room, sessions: map<SessionId, Stored>)
    requires SeatsInv(code, room, sessions) && PresenceInv(room) && room.game.Some?
    ensures GameValid(RecordOf(code, room, sessions))
  {
    hide OriginalsValid, CachesValid, SavedSessions, SeatMatches;
    var record := RecordOf(code, room, sessions);
    GoneAreRight(room.seats, 0);
    LifecyclesAgree(record);
    hide GoneSeats, AwayCount, PresenceLifecycle, SeatLifecycle;
    forall k | 0 <= k < |room.game.value.disconnectedSeats|
      ensures GoneRight(record.seats, room.game.value.disconnectedSeats[k], 0)
    {
    }
  }

  lemma RecordSessionsValid(code: RoomCode, room: Room, sessions: map<SessionId, Stored>)
    requires SeatsInv(code, room, sessions)
    ensures var saved := RecordOf(code, room, sessions).sessions;
            && saved != []
            && (forall j, k :: 0 <= j < k < |saved| ==> saved[j].session != saved[k].session && saved[j].seat != saved[k].seat)
            && (forall k :: 0 <= k < |saved| ==>
                  saved[k].seat < SEATS && room.seats[saved[k].seat].HumanSeat? && room.seats[saved[k].seat].session == saved[k].session)
  {
    hide OriginalsValid, CachesValid, SavedSessions, SeatMatches;
    var saved := SavedSessions(room.seats, sessions, 0);
    SavedAreRight(room.seats, sessions, 0);
    var n :| 0 <= n < SEATS && room.seats[n].HumanSeat? && room.seats[n].session in sessions;
    var m := SavedCovers(room.seats, sessions, 0, n);
    forall k | 0 <= k < |saved|
      ensures saved[k].seat < SEATS && room.seats[saved[k].seat].HumanSeat? && room.seats[saved[k].seat].session == saved[k].session
    {
      assert SavedRight(room.seats, sessions, saved[k], 0);
    }
    forall j, k | 0 <= j < k < |saved| ensures saved[j].session != saved[k].session && saved[j].seat != saved[k].seat {
      assert SavedRight(room.seats, sessions, saved[j], 0) && SavedRight(room.seats, sessions, saved[k], 0);
      assert saved[j].seat < saved[k].seat;
    }
  }

  lemma RecordSeatsValid(code: RoomCode, room: Room, sessions: map<SessionId, Stored>)
    requires SeatsInv(code, room, sessions)
    ensures var record := RecordOf(code, room, sessions);
            forall i: nat :: i < SEATS && record.seats[i].HumanSeat? ==> RecordSeatValid(record, i)
  {
    hide OriginalsValid, CachesValid, SavedSessions;
    var record := RecordOf(code, room, sessions);
    var saved := record.sessions;
    SavedAreRight(room.seats, sessions, 0);
    forall i: nat | i < SEATS && record.seats[i].HumanSeat? ensures RecordSeatValid(record, i) {
      assert SeatMatches(code, i, room.seats[i], sessions);
      var id := record.seats[i].session;
      if id in sessions {
        var k := SavedCovers(room.seats, sessions, 0, i);
        assert saved[k].session == id;
      }
      forall k | 0 <= k < |saved| && saved[k].session == id
        ensures id in sessions && saved[k].seat == i && saved[k].deadline == record.seats[i].deadline
      {
        assert SavedRight(room.seats, sessions, saved[k], 0);
      }
    }
  }
}
