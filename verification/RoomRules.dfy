// The Room operations as one table, like the one of the game's rules: when each is granted, and
// what becomes of the Room and its sessions. The service is proved to grant exactly that and to
// do exactly that.

module RoomRules {
  import opened Board
  import opened Sessions
  import opened Rooms
  import opened RoomSteps
  import opened RoomSafety
  import opened RoomEffects

  // The Room and the seat of a stored session.

  lemma StoredIsMember(s: Service, id: SessionId)
    requires Inv(s)
    ensures IsMember(s, id) <==> id in s.sessions
    ensures id in s.sessions ==> |s.rooms[s.sessions[id].roomCode].seats| == SEATS
  {
    hide SeatsInv, PresenceInv, RoomInv;
    if id in s.sessions {
      assert StoredRight(s.rooms, s.sessions[id], id);
      RoomIs(s, s.sessions[id].roomCode);
    }
  }

  ghost function OwnRoom(s: Service, id: SessionId): (room: Room)
    requires Inv(s) && id in s.sessions
    ensures s.sessions[id].roomCode in s.rooms && |room.seats| == SEATS && s.sessions[id].seat < SEATS
  {
    StoredIsMember(s, id);
    s.rooms[s.sessions[id].roomCode]
  }

  ghost function OwnSeat(s: Service, id: SessionId): (seat: Seat)
    requires Inv(s) && id in s.sessions
    ensures seat.HumanSeat?
  {
    StoredIsMember(s, id);
    s.rooms[s.sessions[id].roomCode].seats[s.sessions[id].seat]
  }

  // When an operation is granted.

  ghost predicate IsHostOf(s: Service, id: SessionId, revision: nat)
    requires Inv(s)
  {
    id in s.sessions && OwnRoom(s, id).host == id && OwnRoom(s, id).revision == revision
  }

  // The connected host of this game, which somebody's expiry has stopped.
  ghost predicate MayDecide(s: Service, id: SessionId, gameId: string, revision: nat)
    requires Inv(s)
  {
    && IsHostOf(s, id, revision) && OwnSeat(s, id).connection == Connected
    && (var room := OwnRoom(s, id);
        && room.game.Some? && room.game.value.gameId == gameId && !room.game.value.finished && !room.game.value.failed
        && exists i :: 0 <= i < |room.seats| && room.seats[i].HumanSeat? && room.seats[i].connection == Disconnected)
  }

  predicate IsReadySeat(seat: Seat) {
    seat.AiSeat? || (seat.HumanSeat? && seat.connection == Connected && seat.ready)
  }

  predicate HasTwoHumans(seats: seq<Seat>) {
    exists i, j :: 0 <= i < j < |seats| && seats[i].HumanSeat? && seats[j].HumanSeat?
  }

  ghost predicate InLobby(s: Service, id: SessionId)
    requires Inv(s)
  {
    id in s.sessions && OwnRoom(s, id).game.None?
  }

  ghost predicate IsGranted(s: Service, step: Step, t: Clock)
    requires Inv(s)
  {
    match step
    case CreateStep(_, _, _, _, valid) => |s.rooms| < MAX_ROOMS && valid
    case JoinStep(code, _, _, name, valid) =>
      && code in s.rooms && s.rooms[code].game.None? && valid && EmptySeat in s.rooms[code].seats
      && forall seat :: seat in s.rooms[code].seats && seat.HumanSeat? ==> seat.displayName != name
    case ResumeStep(code, id, i, digest) => HasToken(s, code, id, i, digest) && !IsLate(s, id, t)
    case DisconnectStep(id) => id in s.sessions
    case ReadyStep(id, revision, _) =>
      InLobby(s, id) && OwnRoom(s, id).revision == revision && OwnSeat(s, id).connection == Connected
    case AiSeatStep(id, revision, i, _) =>
      InLobby(s, id) && IsHostOf(s, id, revision) && i < |OwnRoom(s, id).seats| && !OwnRoom(s, id).seats[i].HumanSeat?
    case LeaveStep(id) => InLobby(s, id)
    case SnapshotStep(id) => id in s.sessions
    case StartStep(id, revision, _, _) =>
      && InLobby(s, id) && IsHostOf(s, id, revision) && HasTwoHumans(OwnRoom(s, id).seats)
      && forall i :: 0 <= i < |OwnRoom(s, id).seats| ==> IsReadySeat(OwnRoom(s, id).seats[i])
    case ReplaceStep(id, gameId, revision, i, _) =>
      && MayDecide(s, id, gameId, revision)
      && i < |OwnRoom(s, id).seats| && OwnRoom(s, id).seats[i].HumanSeat? && OwnRoom(s, id).seats[i].connection == Disconnected
    case CloseStep(id, gameId, revision) => MayDecide(s, id, gameId, revision)
    case _ => true
  }

  // The credential the session was given: its Room, its seat and its token.
  predicate HasToken(s: Service, code: RoomCode, id: SessionId, i: nat, digest: string) {
    id in s.sessions && s.sessions[id].roomCode == code && s.sessions[id].seat == i && s.sessions[id].tokenDigest == digest
  }

  predicate IsLate(s: Service, id: SessionId, t: Clock) {
    id in s.sessions && s.sessions[id].deadline.Some? && s.sessions[id].deadline.value <= t.now
  }

  // Without the session's own credential nobody resumes it, and nothing happens.
  lemma WrongTokenIsRefused(s: Service, code: RoomCode, id: SessionId, i: nat, digest: string, t: Clock)
    requires !HasToken(s, code, id, i, digest)
    ensures Resume(s, code, id, i, digest, t) == RoomOutcome(s, None, Some(SessionInvalid))
  {
  }

  lemma SeatsLeft(seats: seq<Seat>, name: string)
    ensures FirstEmpty(seats, 0).Some? <==> EmptySeat in seats
    ensures FirstEmpty(seats, 0).Some? ==> FirstEmpty(seats, 0).value < |seats|
    ensures NameTaken(seats, name) <==> !forall seat :: seat in seats && seat.HumanSeat? ==> seat.displayName != name
  {
    hide FirstEmpty;
    FirstEmptyFacts(seats, 0);
    if EmptySeat in seats {
      var i :| 0 <= i < |seats| && seats[i] == EmptySeat;
      assert seats[i].EmptySeat?;
    }
    if seat :| seat in seats && seat.HumanSeat? && seat.displayName == name {
      var i :| 0 <= i < |seats| && seats[i] == seat;
      assert seats[i].HumanSeat? && seats[i].displayName == name;
    }
  }

  lemma ReadyIs(seats: seq<Seat>)
    ensures StartReady(seats) <==> HasTwoHumans(seats) && forall i :: 0 <= i < |seats| ==> IsReadySeat(seats[i])
  {
  }

  // The game waits for a replacement exactly while somebody's grace is over.
  lemma WaitsForReplacement(room: Room)
    requires room.game.Some? && PresenceInv(room)
    ensures PresenceLifecycle(room.game.value) == RecordPausedReplacement <==>
              && !room.game.value.finished && !room.game.value.failed
              && exists i :: 0 <= i < |room.seats| && room.seats[i].HumanSeat? && room.seats[i].connection == Disconnected
  {
    hide GoneSeats, AwayCount;
    GoneAreRight(room.seats, 0);
    var gone := GoneSeats(room.seats, 0);
    if i: nat :| i < |room.seats| && room.seats[i].HumanSeat? && room.seats[i].connection == Disconnected {
      var k := GoneCovers(room.seats, 0, i);
      assert GoneRight(room.seats, gone[k], 0) && gone[k].replacementRequired;
    }
    if k :| 0 <= k < |gone| && gone[k].replacementRequired {
      assert GoneRight(room.seats, gone[k], 0);
    }
  }

  lemma AuthorityIs(s: Service, id: SessionId, gameId: string, revision: nat)
    requires hide *; Inv(s)
    ensures HostAuthority(s, id, gameId, revision).None? <==> MayDecide(s, id, gameId, revision)
  {
    hide Inv, PresenceLifecycle, PresenceInv, SeatsInv;
    StoredIsMember(s, id);
    if id in s.sessions && OwnRoom(s, id).game.Some? {
      RoomIs(s, s.sessions[id].roomCode);
      WaitsForReplacement(OwnRoom(s, id));
    }
  }

  lemma ExitHasNoError(s: Service, id: SessionId, t: Clock)
    requires IsMember(s, id)
    ensures Expire(s, id, t).error.None?
    ensures Vacated(s, s.sessions[id].roomCode, s.sessions[id].seat, id, t).error.None?
  {
    hide WithoutRoom, AnySession, AnyHuman, FirstConnected, SyncedIfPlaying, TransferredHost, BeforeSave;
  }

  // An operation that is not granted is refused and changes nothing; but a resumption that comes
  // too late, with the right credential, ends the session as its timer would.
  lemma GrantedExactly(s: Service, step: Step, t: Clock)
    requires Inv(s) && Possible(s, step)
    ensures Take(s, step, t).error.None? <==> IsGranted(s, step, t)
    ensures Take(s, step, t).error.Some? ==>
              if step.ResumeStep? && HasToken(s, step.code, step.id, step.seat, step.digest)
              then Take(s, step, t) == Take(s, ExpireStep(step.id), t).(error := Some(SessionInvalid))
              else Take(s, step, t).service == s && Take(s, step, t).saved.None?
  {
    hide Inv, Expire, Vacated, WithoutRoom, RecoverRoom, AfterDeed, FreshSession, AggregateValid, Fits, FirstEmpty, NameTaken, StartReady,
      PresenceLifecycle, BeforeSave, Touched, SyncedIfPlaying, TransferredHost, HostAuthority, HasTwoHumans, MayDecide, IsReadySeat,
      RecoveredSeats, RecoveredSessions, IsPlayer;
    match step {
      case CreateStep(_, _, _, _, _) =>
      case JoinStep(code, _, _, name, _) => if code in s.rooms { SeatsLeft(s.rooms[code].seats, name); }
      case IdleStep(_) =>
      case AbandonStep(_) =>
      case PlayStep(_, _) =>
      case AnnounceStep(_) =>
      case RecoverStep(record) => RecoverHasNoError(s, record, t);
      case _ => MemberGrantedExactly(s, step, t);
    }
  }

  lemma RecoverHasNoError(s: Service, record: Record, t: Clock)
    ensures RecoverRoom(s, record, t).error.None?
  {
    hide BeforeSave, SyncedIfPlaying, RecoveredSeats, RecoveredSessions;
  }

  predicate IsMemberStep(step: Step) {
    || step.ResumeStep? || step.DisconnectStep? || step.ReadyStep? || step.AiSeatStep? || step.LeaveStep? || step.SnapshotStep?
    || step.StartStep? || step.ReplaceStep? || step.CloseStep? || step.ExpireStep?
  }

  lemma MemberGrantedExactly(s: Service, step: Step, t: Clock)
    requires Inv(s) && Possible(s, step) && IsMemberStep(step)
    ensures Take(s, step, t).error.None? <==> IsGranted(s, step, t)
    ensures Take(s, step, t).error.Some? ==>
              if step.ResumeStep? && HasToken(s, step.code, step.id, step.seat, step.digest)
              then Take(s, step, t) == Take(s, ExpireStep(step.id), t).(error := Some(SessionInvalid))
              else Take(s, step, t).service == s && Take(s, step, t).saved.None?
  {
    hide Inv, Expire, Vacated, WithoutRoom, StartReady, PresenceLifecycle, BeforeSave, Touched, SyncedIfPlaying, TransferredHost,
      HostAuthority, HasTwoHumans, MayDecide, IsReadySeat;
    var id := step.id;
    StoredIsMember(s, id);
    if id in s.sessions {
      ExitHasNoError(s, id, t);
      ReadyIs(OwnRoom(s, id).seats);
    }
    if step.ReplaceStep? || step.CloseStep? {
      AuthorityIs(s, id, step.gameId, step.revision);
    }
  }

  // What a granted operation does.

  predicate Shows(after: Service, code: RoomCode, face: Face) {
    code in after.rooms && FaceOf(after.rooms[code]) == face
  }

  // A seat changes hands or state under a new revision, if it changes at all.
  function Reseated(room: Room, i: nat, seat: Seat): Face
    requires i < |room.seats|
  {
    FaceOf(room).(seats := room.seats[i := seat], revision := if room.seats[i] == seat then room.revision else room.revision + 1)
  }

  // A lobby lives on from every operation of its members.
  predicate Renews(after: Service, code: RoomCode, t: Clock) {
    code in after.rooms && after.rooms[code].game.None? ==> after.rooms[code].idleDeadline == t.now + t.idleTtl
  }

  // The first connected Human of a game takes over from a host whose session is gone.
  ghost predicate HostPasses(before: Room, after: Room, sessions: map<SessionId, Stored>) {
    if before.game.None? || before.host in sessions || forall j :: 0 <= j < |after.seats| ==> !IsConnected(after.seats[j])
    then after.host == before.host
    else exists j :: 0 <= j < |after.seats| && IsFirstConnected(after.seats, j) && after.host == after.seats[j].session
  }

  predicate IsConnected(seat: Seat) {
    seat.HumanSeat? && seat.connection == Connected
  }

  ghost predicate IsFirstConnected(seats: seq<Seat>, j: int)
    requires 0 <= j < |seats|
    ensures IsFirstConnected(seats, j) ==> seats[j].HumanSeat?
  {
    IsConnected(seats[j]) && forall k :: 0 <= k < j ==> !IsConnected(seats[k])
  }

  // A Room goes with the sessions of its Room.
  ghost predicate Closes(s: Service, code: RoomCode, after: Service) {
    && after.rooms == s.rooms - {code}
    && (forall id :: id in after.sessions <==> id in s.sessions && s.sessions[id].roomCode != code)
    && forall id :: id in after.sessions ==> after.sessions[id] == s.sessions[id]
  }

  ghost predicate Does(s: Service, step: Step, t: Clock, after: Service)
    requires Inv(s) && IsGranted(s, step, t)
  {
    match step
    case CreateStep(code, id, digest, name, _) =>
      && Shows(after, code, Face(0, [HumanSeat(id, name, false, Connected, None), EmptySeat, EmptySeat, EmptySeat], id, Waiting))
      && after.sessions == s.sessions[id := Stored(code, 0, digest, None)] && Renews(after, code, t)
    case JoinStep(code, id, digest, name, _) =>
      && (exists i: nat :: IsFirstEmpty(s.rooms[code].seats, i)
            && Shows(after, code, Reseated(s.rooms[code], i, HumanSeat(id, name, false, Connected, None)))
            && after.sessions == s.sessions[id := Stored(code, i, digest, None)])
      && Renews(after, code, t)
    case ResumeStep(code, id, i, _) =>
      && code in after.rooms && after.rooms[code].seats == OwnRoom(s, id).seats[i := OwnSeat(s, id).(connection := Connected, deadline := None)]
      && after.rooms[code].revision == OwnRoom(s, id).revision + (if OwnSeat(s, id).connection == Connected then 0 else 1)
      && HostPasses(OwnRoom(s, id), after.rooms[code], s.sessions)
      && after.sessions == s.sessions[id := s.sessions[id].(deadline := None)] && Renews(after, code, t)
    case DisconnectStep(id) =>
      var stored, deadline := s.sessions[id], Some(t.now + t.reconnectGrace);
      if OwnSeat(s, id).connection == Reconnecting then Shows(after, stored.roomCode, FaceOf(OwnRoom(s, id))) && after.sessions == s.sessions
      else
        && Shows(after, stored.roomCode,
                 Reseated(OwnRoom(s, id), stored.seat, OwnSeat(s, id).(connection := Reconnecting, deadline := deadline)))
        && after.sessions == s.sessions[id := stored.(deadline := deadline)]
    case ReadyStep(id, _, ready) =>
      var stored := s.sessions[id];
      && Shows(after, stored.roomCode, Reseated(OwnRoom(s, id), stored.seat, OwnSeat(s, id).(ready := ready)))
      && after.sessions == s.sessions && Renews(after, stored.roomCode, t)
    case AiSeatStep(id, _, i, profile) =>
      var code := s.sessions[id].roomCode;
      && Shows(after, code, Reseated(OwnRoom(s, id), i, if profile.Some? then AiSeat(profile.value) else EmptySeat))
      && after.sessions == s.sessions && Renews(after, code, t)
    case LeaveStep(id) => Vacates(s, id, t, after)
    case SnapshotStep(id) =>
      var code := s.sessions[id].roomCode;
      Shows(after, code, FaceOf(OwnRoom(s, id))) && after.sessions == s.sessions && Renews(after, code, t)
    case StartStep(id, _, gameId, cacheLimit) =>
      var code, room := s.sessions[id].roomCode, OwnRoom(s, id);
      && Shows(after, code, FaceOf(room).(revision := room.revision + 1, status := Playing)) && after.sessions == s.sessions
      && after.rooms[code].game == Some(RoomGame(gameId, room.seats, map[], [], None, 0, false, false, cacheLimit, map[]))
    case ReplaceStep(id, _, _, i, profile) =>
      var code, room := s.sessions[id].roomCode, OwnRoom(s, id);
      && Shows(after, code, Reseated(room, i, AiSeat(profile))) && after.sessions == s.sessions
      && room.game.Some? && after.rooms[code].game.Some?
      && after.rooms[code].game.value.replacements == room.game.value.replacements[i := profile]
      && after.rooms[code].game.value.cache == room.game.value.cache - {room.seats[i].session}
    case CloseStep(id, _, _) => Closes(s, s.sessions[id].roomCode, after)
    case ExpireStep(id) =>
      if !IsLate(s, id, t) then after == s
      else if OwnRoom(s, id).game.None? then Vacates(s, id, t, after)
      else DropsOut(s, id, t, after)
    case IdleStep(code) =>
      if code in s.rooms && s.rooms[code].game.None? && s.rooms[code].idleDeadline <= t.now then Closes(s, code, after) else after == s
    case AbandonStep(code) =>
      if code in s.rooms && s.rooms[code].game.Some? && IsPast(s.rooms[code].abandonedDeadline, t) then Closes(s, code, after) else after == s
    // Play moves nobody; its end is announced under a new revision.
    case PlayStep(code, _) =>
      && code in s.rooms && code in after.rooms && after.sessions == s.sessions
      && after.rooms[code].seats == s.rooms[code].seats && after.rooms[code].host == s.rooms[code].host
      && after.rooms[code].revision == s.rooms[code].revision
    case AnnounceStep(code) =>
      if code in s.rooms && StatusOf(s.rooms[code].game) == Over
      then Shows(after, code, FaceOf(s.rooms[code]).(revision := s.rooms[code].revision + 1)) && after.sessions == s.sessions
      else after == s
    case RecoverStep(_) => true
  }

  predicate IsPast(deadline: Option<int>, t: Clock) {
    deadline.Some? && deadline.value <= t.now
  }

  // A lobby seat is given up; without another Human, or without a connected heir, the Room goes too.
  ghost predicate Vacates(s: Service, id: SessionId, t: Clock, after: Service)
    requires Inv(s) && InLobby(s, id)
  {
    var code, i, room := s.sessions[id].roomCode, s.sessions[id].seat, OwnRoom(s, id);
    if (forall j :: 0 <= j < |room.seats| && j != i ==> !room.seats[j].HumanSeat?)
       || (room.host == id && forall j :: 0 <= j < |room.seats| && j != i ==> !IsConnected(room.seats[j]))
    then Closes(s, code, after)
    else
      && code in after.rooms
      && after.rooms[code].seats == room.seats[i := EmptySeat] && after.rooms[code].revision == room.revision + 1
      && (if room.host != id then after.rooms[code].host == room.host
          else exists j :: 0 <= j < |after.rooms[code].seats| && IsFirstConnected(after.rooms[code].seats, j)
                           && after.rooms[code].host == after.rooms[code].seats[j].session)
      && after.sessions == s.sessions - {id} && Renews(after, code, t)
  }

  // A Human of a game whose grace is over; the game waits to be abandoned from then on.
  ghost predicate DropsOut(s: Service, id: SessionId, t: Clock, after: Service)
    requires Inv(s) && id in s.sessions
  {
    var code, i, room := s.sessions[id].roomCode, s.sessions[id].seat, OwnRoom(s, id);
    if forall j :: 0 <= j < |room.seats| && room.seats[j].HumanSeat? ==> room.seats[j].session !in s.sessions - {id}
    then Closes(s, code, after)
    else
      && code in after.rooms
      && after.rooms[code].seats == room.seats[i := OwnSeat(s, id).(connection := Disconnected)]
      && after.rooms[code].revision == room.revision + 1
      && HostPasses(room, after.rooms[code], after.sessions) && after.sessions == s.sessions - {id}
      && (room.game.Some? && !room.game.value.finished ==>
            after.rooms[code].abandonedDeadline
            == if room.abandonedDeadline.Some? then room.abandonedDeadline else Some(t.now + t.abandonedTtl))
  }

  // The service does so.

  lemma {:induction false} FirstConnectedIsFirst(seats: seq<Seat>, i: nat)
    requires i <= |seats| && forall k :: 0 <= k < i ==> !IsConnected(seats[k])
    ensures FirstConnected(seats, i).None? <==> forall j :: 0 <= j < |seats| ==> !IsConnected(seats[j])
    ensures FirstConnected(seats, i).Some? ==>
              exists j :: 0 <= j < |seats| && IsFirstConnected(seats, j) && seats[j].session == FirstConnected(seats, i).value
    decreases |seats| - i
  {
    if i < |seats| {
      if IsConnected(seats[i]) {
        assert IsFirstConnected(seats, i);
      } else {
        FirstConnectedIsFirst(seats, i + 1);
      }
    }
  }

  lemma EntryDoes(s: Service, step: Step, t: Clock)
    requires hide *; Inv(s) && Possible(s, step) && IsGranted(s, step, t) && (step.CreateStep? || step.JoinStep?)
    ensures Does(s, step, t, Take(s, step, t).service)
  {
    hide Inv, NameTaken, FirstEmpty, FreshSession;
    FacesKept(t);
    if step.JoinStep? {
      SeatsLeft(s.rooms[step.code].seats, step.name);
      FirstEmptyFacts(s.rooms[step.code].seats, 0);
      var i := FirstEmpty(s.rooms[step.code].seats, 0).value;
      assert IsFirstEmpty(s.rooms[step.code].seats, i);
    }
  }

  lemma SeatDoes(s: Service, step: Step, t: Clock)
    requires hide *; Inv(s) && Possible(s, step) && IsGranted(s, step, t)
    requires step.DisconnectStep? || step.ReadyStep? || step.AiSeatStep? || step.SnapshotStep?
    ensures Does(s, step, t, Take(s, step, t).service)
  {
    hide Inv, SyncedIfPlaying, SeatsInv, PresenceInv;
    FacesKept(t);
    StoredIsMember(s, step.id);
    MemberFacts(s, step.id);
    MemberGrantedExactly(s, step, t);
  }

  lemma GameDoes(s: Service, step: Step, t: Clock)
    requires hide *; Inv(s) && Possible(s, step) && IsGranted(s, step, t) && (step.StartStep? || step.ReplaceStep?)
    ensures Does(s, step, t, Take(s, step, t).service)
  {
    hide Inv, GoneSeats, StartReady, PresenceLifecycle, HostAuthority, MayDecide, HasTwoHumans, IsReadySeat;
    FacesKept(t);
    StoredIsMember(s, step.id);
    MemberGrantedExactly(s, step, t);
    if step.ReplaceStep? {
      AuthorityIs(s, step.id, step.gameId, step.revision);
      DeciderPlays(s, step.id, step.gameId, step.revision);
    }
  }

  lemma DeciderPlays(s: Service, id: SessionId, gameId: string, revision: nat)
    requires hide *; Inv(s) && MayDecide(s, id, gameId, revision)
    ensures id in s.sessions && OwnRoom(s, id).game.Some?
  {
  }

  lemma ResumeDoes(s: Service, step: Step, t: Clock)
    requires hide *; Inv(s) && Possible(s, step) && IsGranted(s, step, t) && step.ResumeStep?
    ensures Does(s, step, t, Take(s, step, t).service)
  {
    hide Inv, FirstConnected, SyncedIfPlaying, BeforeSave, TransferredHost, HostPasses;
    StoredIsMember(s, step.id);
    MemberFacts(s, step.id);
    var room, held := OwnRoom(s, step.id), OwnSeat(s, step.id);
    var sessions := s.sessions[step.id := s.sessions[step.id].(deadline := None)];
    var seats := room.seats[step.seat := held.(connection := Connected, deadline := None)];
    assert held.connection == Connected ==> seats == room.seats;
    var back := if held.connection == Connected then room else room.(seats := seats, revision := room.revision + 1);
    HostIsPassed(room, back, sessions, s.sessions);
    BackIsSaved(TransferredHost(back, sessions), t);
  }

  // What saving a Room that somebody has come back to leaves of it.
  lemma BackIsSaved(room: Room, t: Clock)
    ensures var saved := BeforeSave(Touched(SyncedIfPlaying(room), t), t);
            && (saved.seats, saved.revision, saved.host) == (room.seats, room.revision, room.host)
            && (room.game.None? ==> saved.game.None? && saved.idleDeadline == t.now + t.idleTtl)
            && (room.game.Some? ==> saved.game.Some?)
  {
    hide GoneSeats;
  }

  lemma HostIsPassed(before: Room, room: Room, sessions: map<SessionId, Stored>, known: map<SessionId, Stored>)
    requires room.game == before.game && room.host == before.host && sessions.Keys == known.Keys
    ensures TransferredHost(room, sessions).seats == room.seats && TransferredHost(room, sessions).revision == room.revision
    ensures forall after: Room :: after.seats == room.seats && after.host == TransferredHost(room, sessions).host ==> HostPasses(before, after, known)
  {
    hide FirstConnected;
    FirstConnectedIsFirst(room.seats, 0);
  }

  lemma ClosedCloses(s: Service, code: RoomCode)
    requires hide *; Inv(s) && code in s.rooms
    ensures Closes(s, code, WithoutRoom(s, code))
  {
    hide Inv, HoldsSession;
    forall id | id in s.sessions ensures HoldsSession(s.rooms[code].seats, id) <==> s.sessions[id].roomCode == code {
      StoredIsMember(s, id);
      if s.sessions[id].roomCode == code {
        HeldByMember(s, id);
      }
      if HoldsSession(s.rooms[code].seats, id) {
        OwnSession(s, id, code);
      }
    }
  }

  lemma VacatedDoes(s: Service, id: SessionId, t: Clock)
    requires Inv(s) && InLobby(s, id)
    ensures Vacates(s, id, t, Vacated(s, s.sessions[id].roomCode, s.sessions[id].seat, id, t).service)
  {
    hide Inv, FirstConnected, AnyHuman, IsFirstConnected, WithoutRoom, Closes;
    FacesKept(t);
    StoredIsMember(s, id);
    var code, i := s.sessions[id].roomCode, s.sessions[id].seat;
    var seats := s.rooms[code].seats;
    ClosedCloses(s, code);
    OthersAre(seats, i);
    var left := seats[i := EmptySeat];
    FirstConnectedIsFirst(left, 0);
    assert (forall j :: 0 <= j < |left| ==> !IsConnected(left[j])) <==> forall j :: 0 <= j < |seats| && j != i ==> !IsConnected(seats[j]) by {
      assert forall j :: 0 <= j < |seats| && j != i ==> left[j] == seats[j];
    }
  }

  lemma DroppedOut(s: Service, id: SessionId, t: Clock)
    requires hide *; Inv(s) && id in s.sessions && OwnRoom(s, id).game.Some?
    ensures IsMember(s, id) && DropsOut(s, id, t, Expire(s, id, t).service)
  {
    hide Inv, FirstConnected, IsFirstConnected, WithoutRoom, Closes, GoneSeats, AnySession;
    FacesKept(t);
    StoredIsMember(s, id);
    var code, i := s.sessions[id].roomCode, s.sessions[id].seat;
    var seats := s.rooms[code].seats;
    var gone := seats[i := seats[i].(connection := Disconnected)];
    ClosedCloses(s, code);
    SessionLeft(seats, i, s.sessions - {id});
    var away := s.rooms[code].(seats := gone, revision := s.rooms[code].revision + 1);
    HostIsPassed(s.rooms[code], away, s.sessions - {id}, s.sessions - {id});
    GoneAreRight(gone, 0);
    var k := GoneCovers(gone, 0, i);
    assert GoneRight(gone, GoneSeats(gone, 0)[k], 0);
  }

  lemma SessionLeft(seats: seq<Seat>, i: nat, sessions: map<SessionId, Stored>)
    requires i < |seats| && seats[i].HumanSeat?
    ensures AnySession(seats[i := seats[i].(connection := Disconnected)], sessions) <==>
              !forall j :: 0 <= j < |seats| && seats[j].HumanSeat? ==> seats[j].session !in sessions
  {
    var gone := seats[i := seats[i].(connection := Disconnected)];
    if j :| 0 <= j < |seats| && seats[j].HumanSeat? && seats[j].session in sessions {
      assert gone[j].HumanSeat? && gone[j].session in sessions;
    }
    if j :| 0 <= j < |gone| && gone[j].HumanSeat? && gone[j].session in sessions {
      assert seats[j].HumanSeat? && seats[j].session in sessions;
    }
  }

  lemma ExitDoes(s: Service, step: Step, t: Clock)
    requires hide *; Inv(s) && Possible(s, step) && IsGranted(s, step, t) && (step.LeaveStep? || step.ExpireStep? || step.CloseStep?)
    ensures Does(s, step, t, Take(s, step, t).service)
  {
    hide Inv, Vacated, Vacates, DropsOut, Closes, WithoutRoom, HostAuthority, MayDecide, AnySession, SyncedIfPlaying, TransferredHost, BeforeSave;
    StoredIsMember(s, step.id);
    if step.CloseStep? {
      AuthorityIs(s, step.id, step.gameId, step.revision);
      DeciderPlays(s, step.id, step.gameId, step.revision);
      ClosedCloses(s, s.sessions[step.id].roomCode);
    } else if step.id in s.sessions {
      if OwnRoom(s, step.id).game.None? {
        VacatedDoes(s, step.id, t);
      } else {
        DroppedOut(s, step.id, t);
      }
    }
  }

  lemma PlayDoes(s: Service, step: Step, t: Clock)
    requires hide *; Inv(s) && Possible(s, step) && IsGranted(s, step, t) && (step.PlayStep? || step.AnnounceStep?)
    ensures Does(s, step, t, Take(s, step, t).service)
  {
    hide Inv, AfterDeed, Fits, BeforeSave;
    FacesKept(t);
  }

  // A granted operation does what the table says; what recovery brings back is said where the
  // repository is.
  lemma StepDoes(s: Service, step: Step, t: Clock)
    requires Inv(s) && Possible(s, step) && IsGranted(s, step, t)
    ensures Does(s, step, t, Take(s, step, t).service)
  {
    hide Inv, Take, Possible, IsGranted, Closes;
    match step {
      case CreateStep(_, _, _, _, _) => EntryDoes(s, step, t);
      case JoinStep(_, _, _, _, _) => EntryDoes(s, step, t);
      case ResumeStep(_, _, _, _) => ResumeDoes(s, step, t);
      case StartStep(_, _, _, _) => GameDoes(s, step, t);
      case ReplaceStep(_, _, _, _, _) => GameDoes(s, step, t);
      case LeaveStep(_) => ExitDoes(s, step, t);
      case ExpireStep(_) => ExitDoes(s, step, t);
      case CloseStep(_, _, _) => ExitDoes(s, step, t);
      case IdleStep(code) => TimerDoes(s, step, t);
      case AbandonStep(code) => TimerDoes(s, step, t);
      case PlayStep(_, _) => PlayDoes(s, step, t);
      case AnnounceStep(_) => PlayDoes(s, step, t);
      case RecoverStep(_) =>
      case _ => SeatDoes(s, step, t);
    }
  }

  lemma TimerDoes(s: Service, step: Step, t: Clock)
    requires hide *; Inv(s) && Possible(s, step) && IsGranted(s, step, t) && (step.IdleStep? || step.AbandonStep?)
    ensures Does(s, step, t, Take(s, step, t).service)
  {
    hide Inv, Closes, WithoutRoom;
    if step.code in s.rooms {
      ClosedCloses(s, step.code);
    }
  }

  // What is written, and when a game that nobody finishes goes.

  // A record says of the Room all there is in memory, and has exactly its members' sessions.
  lemma RecordIs(s: Service, code: RoomCode)
    requires Inv(s) && code in s.rooms
    ensures var record, room := RecordOf(code, s.rooms[code], s.sessions), s.rooms[code];
            && record.roomCode == code && (record.revision, record.host, record.seats) == (room.revision, room.host, room.seats)
            && (record.idleDeadline, record.abandonedDeadline, record.game) == (room.idleDeadline, room.abandonedDeadline, room.game)
            && (forall k :: 0 <= k < |record.sessions| ==> IsSavedFrom(s, code, record.sessions[k]))
            && forall id :: id in s.sessions && s.sessions[id].roomCode == code ==> HasSaved(record, id)
  {
    hide Inv, IsSavedFrom, HoldsSession;
    var seats, saved := s.rooms[code].seats, SavedSessions(s.rooms[code].seats, s.sessions, 0);
    SavedAreThose(seats, s.sessions, 0);
    forall k | 0 <= k < |saved| ensures IsSavedFrom(s, code, saved[k]) {
      SavedIsOwn(s, code, saved[k]);
    }
    forall id | id in s.sessions && s.sessions[id].roomCode == code ensures HasSaved(RecordOf(code, s.rooms[code], s.sessions), id) {
      StoredIsMember(s, id);
      var k := SavedCovers(seats, s.sessions, 0, s.sessions[id].seat);
    }
  }

  predicate IsSavedFrom(s: Service, code: RoomCode, saved: SavedSession) {
    && saved.session in s.sessions
    && s.sessions[saved.session] == Stored(code, saved.seat, saved.tokenDigest, saved.deadline)
  }

  predicate IsSavedOf(seats: seq<Seat>, sessions: map<SessionId, Stored>, saved: SavedSession) {
    && saved.session in sessions && saved.tokenDigest == sessions[saved.session].tokenDigest
    && saved.deadline == sessions[saved.session].deadline
    && saved.seat < |seats| && seats[saved.seat].HumanSeat? && seats[saved.seat].session == saved.session
  }

  lemma {:induction false} SavedAreThose(seats: seq<Seat>, sessions: map<SessionId, Stored>, i: nat)
    requires i <= |seats|
    ensures forall saved :: saved in SavedSessions(seats, sessions, i) ==> IsSavedOf(seats, sessions, saved)
    decreases |seats| - i
  {
    if i < |seats| {
      SavedAreThose(seats, sessions, i + 1);
      SavedUnfold(seats, sessions, i);
      var first := SavedAt(seats, sessions, i);
      assert forall saved :: saved in first ==> IsSavedOf(seats, sessions, saved);
    }
  }

  lemma SavedIsOwn(s: Service, code: RoomCode, saved: SavedSession)
    requires hide *; Inv(s) && code in s.rooms && IsSavedOf(s.rooms[code].seats, s.sessions, saved)
    ensures IsSavedFrom(s, code, saved)
  {
    hide Inv;
    RoomIs(s, code);
    assert SeatMatches(code, saved.seat, s.rooms[code].seats[saved.seat], s.sessions);
  }

  predicate IsAway(seat: Seat) {
    seat.HumanSeat? && seat.connection == Disconnected
  }

  // A game is given up at its deadline. A finished one always has a deadline once it is saved; any
  // other loses it when no seat waits for replacement any more.
  ghost predicate MayBeGivenUp(before: Room, after: Room, t: Clock, synchronized: bool)
    requires after.game.Some?
  {
    if after.game.value.finished then
      after.abandonedDeadline == if before.abandonedDeadline.Some? then before.abandonedDeadline else Some(t.now + t.abandonedTtl)
    else if synchronized && forall i :: 0 <= i < |after.seats| ==> !IsAway(after.seats[i]) then after.abandonedDeadline.None?
    else after.abandonedDeadline == before.abandonedDeadline
  }

  lemma SaveMayGiveUp(s: Service, code: RoomCode, before: Room, room: Room, sessions: map<SessionId, Stored>, t: Clock, synchronized: bool)
    requires room.game.Some? && room.abandonedDeadline == before.abandonedDeadline
    ensures var after := Save(s, code, if synchronized then SyncedIfPlaying(room) else room, sessions, t).service.rooms[code];
            after.game.Some? && MayBeGivenUp(before, after, t, synchronized)
  {
    hide GoneSeats, AwayCount;
    GoneAreRight(room.seats, 0);
    var gone := GoneSeats(room.seats, 0);
    if i: nat :| i < |room.seats| && IsAway(room.seats[i]) {
      var k := GoneCovers(room.seats, 0, i);
      assert GoneRight(room.seats, gone[k], 0) && gone[k].replacementRequired;
    }
    if k :| 0 <= k < |gone| && gone[k].replacementRequired {
      assert GoneRight(room.seats, gone[k], 0) && IsAway(room.seats[gone[k].seat]);
    }
  }

  ghost predicate PlaysOn(s: Service, step: Step, t: Clock, code: RoomCode, synchronized: bool)
    requires Possible(s, step)
  {
    var after := Take(s, step, t).service;
    && code in s.rooms && code in after.rooms
    && (s.rooms[code].game.Some? ==> after.rooms[code].game.Some? && MayBeGivenUp(s.rooms[code], after.rooms[code], t, synchronized))
  }

  lemma ReturnPlaysOn(s: Service, step: Step, t: Clock)
    requires hide *; Inv(s) && Possible(s, step) && IsGranted(s, step, t) && step.ResumeStep?
    ensures PlaysOn(s, step, t, step.code, true)
  {
    hide Inv, MayBeGivenUp, FirstConnected, GoneSeats, BeforeSave;
    StoredIsMember(s, step.id);
    var room, held := OwnRoom(s, step.id), OwnSeat(s, step.id);
    var sessions := s.sessions[step.id := s.sessions[step.id].(deadline := None)];
    var back := if held.connection == Connected then room
                else room.(seats := room.seats[step.seat := held.(connection := Connected, deadline := None)], revision := room.revision + 1);
    if room.game.Some? {
      SaveMayGiveUp(s, step.code, room, TransferredHost(back, sessions), sessions, t, true);
    }
  }

  lemma LossPlaysOn(s: Service, step: Step, t: Clock)
    requires hide *; Inv(s) && Possible(s, step) && step.DisconnectStep? && step.id in s.sessions
    ensures IsMember(s, step.id) && PlaysOn(s, step, t, s.sessions[step.id].roomCode, OwnSeat(s, step.id).connection != Reconnecting)
  {
    hide Inv, MayBeGivenUp, Synchronized, BeforeSave;
    StoredIsMember(s, step.id);
    var code, i, room := s.sessions[step.id].roomCode, s.sessions[step.id].seat, OwnRoom(s, step.id);
    var deadline := Some(t.now + t.reconnectGrace);
    var away := room.(seats := room.seats[i := room.seats[i].(connection := Reconnecting, deadline := deadline)], revision := room.revision + 1);
    if room.game.Some? {
      SaveMayGiveUp(s, code, room, room, s.sessions, t, false);
      SaveMayGiveUp(s, code, room, away, s.sessions[step.id := s.sessions[step.id].(deadline := deadline)], t, true);
    }
  }

  lemma ReplacementPlaysOn(s: Service, step: Step, t: Clock)
    requires hide *; Inv(s) && Possible(s, step) && IsGranted(s, step, t) && step.ReplaceStep?
    ensures step.id in s.sessions && PlaysOn(s, step, t, s.sessions[step.id].roomCode, true)
  {
    hide Inv, MayBeGivenUp, Synchronized, BeforeSave, HostAuthority, MayDecide;
    AuthorityIs(s, step.id, step.gameId, step.revision);
    DeciderPlays(s, step.id, step.gameId, step.revision);
    StoredIsMember(s, step.id);
    var code, room, i := s.sessions[step.id].roomCode, OwnRoom(s, step.id), step.seat;
    var game := room.game.value;
    var replaced := game.(replacements := game.replacements[i := step.profile], cache := game.cache - {room.seats[i].session});
    var next := room.(seats := room.seats[i := AiSeat(step.profile)], game := Some(replaced), revision := room.revision + 1);
    SaveMayGiveUp(s, code, room, next, s.sessions, t, true);
  }

  lemma MovePlaysOn(s: Service, step: Step, t: Clock)
    requires hide *; Possible(s, step) && step.PlayStep?
    ensures PlaysOn(s, step, t, step.code, false)
  {
    hide MayBeGivenUp, BeforeSave, AfterDeed, Fits;
    var room := s.rooms[step.code];
    SaveMayGiveUp(s, step.code, room, room.(game := Some(AfterDeed(room.game.value, step.deed))), s.sessions, t, false);
  }

  // A granted operation on a game that goes on keeps its deadline, gives a finished game one, and
  // takes it back when the last seat that waited for replacement is filled.
  lemma GamesMayBeGivenUp(s: Service, step: Step, t: Clock)
    requires Inv(s) && Possible(s, step) && IsGranted(s, step, t)
    ensures step.ResumeStep? ==> PlaysOn(s, step, t, step.code, true)
    ensures step.DisconnectStep? ==> step.id in s.sessions
    ensures step.DisconnectStep? ==> PlaysOn(s, step, t, s.sessions[step.id].roomCode, OwnSeat(s, step.id).connection != Reconnecting)
    ensures step.ReplaceStep? ==> step.id in s.sessions && PlaysOn(s, step, t, s.sessions[step.id].roomCode, true)
    ensures step.PlayStep? ==> PlaysOn(s, step, t, step.code, false)
  {
    hide Inv, PlaysOn, Possible, MayDecide;
    match step
    case ResumeStep(_, _, _, _) => ReturnPlaysOn(s, step, t);
    case DisconnectStep(_) => LossPlaysOn(s, step, t);
    case ReplaceStep(_, _, _, _, _) => ReplacementPlaysOn(s, step, t);
    case PlayStep(_, _) => MovePlaysOn(s, step, t);
    case _ =>
  }
}
