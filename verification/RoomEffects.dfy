// What the Room operations do besides keeping records valid: they touch one Room only, change
// nothing a member sees without a new revision, keep a live host while anybody is connected,
// and a resumption undoes a disconnection.

module RoomEffects {
  import opened Board
  import opened Sessions
  import opened Rooms
  import opened RoomSteps
  import opened RoomSafety

  // The Room a step is about.
  function Concerned(s: Service, step: Step): Option<RoomCode> {
    match step
    case CreateStep(code, _, _, _, _) => Some(code)
    case JoinStep(code, _, _, _, _) => Some(code)
    case ResumeStep(_, id, _, _) => RoomOfMember(s, id)
    case DisconnectStep(id) => RoomOfMember(s, id)
    case ReadyStep(id, _, _) => RoomOfMember(s, id)
    case AiSeatStep(id, _, _, _) => RoomOfMember(s, id)
    case LeaveStep(id) => RoomOfMember(s, id)
    case SnapshotStep(id) => RoomOfMember(s, id)
    case StartStep(id, _, _, _) => RoomOfMember(s, id)
    case ReplaceStep(id, _, _, _, _) => RoomOfMember(s, id)
    case CloseStep(id, _, _) => RoomOfMember(s, id)
    case ExpireStep(id) => RoomOfMember(s, id)
    case IdleStep(code) => Some(code)
    case AbandonStep(code) => Some(code)
    case PlayStep(code, _) => Some(code)
    case AnnounceStep(code) => Some(code)
    case RecoverStep(record) => Some(record.roomCode)
  }

  function RoomOfMember(s: Service, id: SessionId): Option<RoomCode> {
    if IsMember(s, id) then Some(s.sessions[id].roomCode) else None
  }

  // Other Rooms, and the sessions of everybody seated in them, are as before.
  ghost predicate OthersStay(s: Service, code: RoomCode, after: Service) {
    && (forall c :: c != code ==> (c in after.rooms <==> c in s.rooms))
    && (forall c :: c in s.rooms && c != code ==> after.rooms[c] == s.rooms[c])
    && Isolated(s, code, after.sessions)
  }

  // A session of the Room, or one nobody has seen.
  ghost predicate IsOf(s: Service, code: RoomCode, id: SessionId) {
    (id in s.sessions && s.sessions[id].roomCode == code) || FreshSession(s, id)
  }

  // Only the Room's own sessions changed.
  ghost predicate OwnSessionsChange(s: Service, code: RoomCode, sessions: map<SessionId, Stored>) {
    forall id :: SameEntry(s.sessions, sessions, id) || IsOf(s, code, id)
  }

  lemma OwnSessionsIsolated(s: Service, code: RoomCode, sessions: map<SessionId, Stored>)
    requires Inv(s) && OwnSessionsChange(s, code, sessions)
    ensures Isolated(s, code, sessions)
  {
    hide Inv, HoldsSession;
    forall c, id | c in s.rooms && c != code && HoldsSession(s.rooms[c].seats, id) ensures SameEntry(s.sessions, sessions, id) {
      if id in s.sessions {
        OwnSession(s, id, c);
      }
    }
  }

  lemma OneSessionChanges(s: Service, code: RoomCode, id: SessionId, sessions: map<SessionId, Stored>)
    requires Inv(s) && IsOf(s, code, id)
    requires forall other :: other != id ==> SameEntry(s.sessions, sessions, other)
    ensures Isolated(s, code, sessions)
  {
    hide Inv, FreshSession;
    OwnSessionsIsolated(s, code, sessions);
  }

  lemma SavedStays(s: Service, code: RoomCode, room: Room, sessions: map<SessionId, Stored>, t: Clock)
    requires Isolated(s, code, sessions)
    ensures OthersStay(s, code, Save(s, code, room, sessions, t).service)
  {
    hide Isolated, BeforeSave;
  }

  lemma ClosedStays(s: Service, code: RoomCode)
    requires Inv(s) && code in s.rooms
    ensures OthersStay(s, code, WithoutRoom(s, code))
  {
    hide Inv, HoldsSession, FreshSession;
    var after := WithoutRoom(s, code);
    forall id ensures SameEntry(s.sessions, after.sessions, id) || IsOf(s, code, id) {
      if id in s.sessions && HoldsSession(s.rooms[code].seats, id) {
        OwnSession(s, id, code);
      }
    }
    OwnSessionsIsolated(s, code, after.sessions);
  }

  lemma NothingStays(s: Service, code: RoomCode)
    ensures OthersStay(s, code, s)
  {
    SelfIsolated(s, code);
  }

  // A member's operation.
  lemma MemberStays(s: Service, id: SessionId, room: Room, sessions: map<SessionId, Stored>, t: Clock)
    requires Inv(s) && IsMember(s, id)
    requires forall other :: other != id ==> SameEntry(s.sessions, sessions, other)
    ensures OthersStay(s, s.sessions[id].roomCode, Save(s, s.sessions[id].roomCode, room, sessions, t).service)
  {
    hide Inv, FreshSession, Isolated, OthersStay, Save;
    OneSessionChanges(s, s.sessions[id].roomCode, id, sessions);
    SavedStays(s, s.sessions[id].roomCode, room, sessions, t);
  }

  lemma VacatedStays(s: Service, id: SessionId, t: Clock)
    requires Inv(s) && IsMember(s, id)
    ensures OthersStay(s, s.sessions[id].roomCode, Vacated(s, s.sessions[id].roomCode, s.sessions[id].seat, id, t).service)
  {
    hide Inv, OthersStay, Save, WithoutRoom, HoldsSession;
    var code, i := s.sessions[id].roomCode, s.sessions[id].seat;
    var room := s.rooms[code].(seats := s.rooms[code].seats[i := EmptySeat], revision := s.rooms[code].revision + 1);
    var hosted := if room.host == id && FirstConnected(room.seats, 0).Some?
                  then room.(host := FirstConnected(room.seats, 0).value) else room;
    MemberStays(s, id, Touched(hosted, t), s.sessions - {id}, t);
    ClosedStays(s, code);
  }

  lemma ExpiredStays(s: Service, id: SessionId, t: Clock)
    requires Inv(s) && IsMember(s, id)
    ensures OthersStay(s, s.sessions[id].roomCode, Expire(s, id, t).service)
  {
    hide Inv, OthersStay, Save, WithoutRoom, HoldsSession, Vacated, SyncedIfPlaying, TransferredHost, AnySession;
    VacatedStays(s, id, t);
    var code, i := s.sessions[id].roomCode, s.sessions[id].seat;
    var room, sessions := s.rooms[code], s.sessions - {id};
    var gone := room.(seats := room.seats[i := room.seats[i].(connection := Disconnected)], revision := room.revision + 1);
    var hosted := TransferredHost(gone, sessions);
    var scheduled := if hosted.abandonedDeadline.Some? then hosted else hosted.(abandonedDeadline := Some(t.now + t.abandonedTtl));
    MemberStays(s, id, SyncedIfPlaying(scheduled), sessions, t);
    ClosedStays(s, code);
  }

  lemma EntrySaved(s: Service, code: RoomCode, id: SessionId, digest: string, i: nat, room: Room, t: Clock)
    requires Inv(s) && FreshSession(s, id)
    ensures OthersStay(s, code, Save(s, code, room, s.sessions[id := Stored(code, i, digest, None)], t).service)
  {
    hide Inv, OthersStay, Save, FreshSession, Isolated;
    var sessions := s.sessions[id := Stored(code, i, digest, None)];
    OneSessionChanges(s, code, id, sessions);
    SavedStays(s, code, room, sessions, t);
  }

  lemma EntryStays(s: Service, step: Step, t: Clock)
    requires hide *; Inv(s) && Possible(s, step) && (step.CreateStep? || step.JoinStep?)
    ensures OthersStay(s, step.code, Take(s, step, t).service)
  {
    hide Inv, OthersStay, Save, HoldsSession, FreshSession, Touched, NameTaken, FirstEmpty;
    var code, id := step.code, step.id;
    NothingStays(s, code);
    if step.CreateStep? {
      var room := Room(0, id, [NewHuman(id, step.name), EmptySeat, EmptySeat, EmptySeat], t.now + t.idleTtl, None, None);
      EntrySaved(s, code, id, step.digest, 0, room, t);
    } else if code in s.rooms && FirstEmpty(s.rooms[code].seats, 0).Some? && FirstEmpty(s.rooms[code].seats, 0).value < |s.rooms[code].seats| {
      var room, i := s.rooms[code], FirstEmpty(s.rooms[code].seats, 0).value;
      var joined := room.(seats := room.seats[i := NewHuman(id, step.name)], revision := room.revision + 1);
      EntrySaved(s, code, id, step.digest, i, Touched(joined, t), t);
    }
  }

  lemma MemberStepStays(s: Service, step: Step, t: Clock, code: RoomCode)
    requires Inv(s) && (Concerned(s, step).Some? ==> Concerned(s, step).value == code)
    requires step.LeaveStep? || step.ExpireStep? || step.CloseStep?
    ensures OthersStay(s, code, Take(s, step, t).service)
  {
    hide Inv, OthersStay, WithoutRoom, HoldsSession, Vacated, Expire, PresenceLifecycle;
    NothingStays(s, code);
    if IsMember(s, step.id) {
      VacatedStays(s, step.id, t);
      ExpiredStays(s, step.id, t);
      ClosedStays(s, code);
    }
  }

  // A step leaves every Room it is not about alone, with its members' sessions.
  lemma OneRoomMoves(s: Service, step: Step, t: Clock, code: RoomCode)
    requires Inv(s) && Possible(s, step) && (Concerned(s, step).Some? ==> Concerned(s, step).value == code)
    ensures OthersStay(s, code, Take(s, step, t).service)
  {
    hide Inv, OthersStay, Create, Join, Resume, MarkDisconnected, SetReady, SetAiSeat, RequestSnapshot, Start, ReplaceExpired,
      Leave, Expire, CloseGame, WithoutRoom, Save, RecoverRoom, FreshSession, Isolated, Fits, AggregateValid;
    NothingStays(s, code);
    match step {
      case CreateStep(_, _, _, _, _) => EntryStays(s, step, t);
      case JoinStep(_, _, _, _, _) => EntryStays(s, step, t);
      case ResumeStep(_, _, _, _) => ResumedStays(s, step, t, code);
      case DisconnectStep(id) => DisconnectedStays(s, id, t, code);
      case PlayStep(_, _) => PlayStays(s, step, t, code);
      case AnnounceStep(_) => PlayStays(s, step, t, code);
      case RecoverStep(record) => RecoveredStays(s, record, t);
      case LeaveStep(_) => MemberStepStays(s, step, t, code);
      case ExpireStep(_) => MemberStepStays(s, step, t, code);
      case CloseStep(_, _, _) => MemberStepStays(s, step, t, code);
      case IdleStep(_) => if code in s.rooms { ClosedStays(s, code); }
      case AbandonStep(_) => if code in s.rooms { ClosedStays(s, code); }
      case _ => SeatStepStays(s, step, t, code);
    }
  }

  lemma PlayStays(s: Service, step: Step, t: Clock, code: RoomCode)
    requires hide *; Possible(s, step) && (step.PlayStep? || step.AnnounceStep?) && step.code == code
    ensures OthersStay(s, code, Take(s, step, t).service)
  {
    hide OthersStay, BeforeSave, Fits, AfterDeed, Isolated;
    NothingStays(s, code);
    SelfIsolated(s, code);
    forall room ensures OthersStay(s, code, Save(s, code, room, s.sessions, t).service) {
      SavedStays(s, code, room, s.sessions, t);
    }
  }

  lemma ResumedStays(s: Service, step: Step, t: Clock, code: RoomCode)
    requires Inv(s) && step.ResumeStep? && (Concerned(s, step).Some? ==> Concerned(s, step).value == code)
    ensures OthersStay(s, code, Resume(s, step.code, step.id, step.seat, step.digest, t).service)
  {
    hide Inv, OthersStay, Save, Expire, SyncedIfPlaying, TransferredHost, Touched, HoldsSession;
    NothingStays(s, code);
    var id := step.id;
    if IsMember(s, id) {
      ExpiredStays(s, id, t);
      var room, held := s.rooms[code], s.rooms[code].seats[s.sessions[id].seat];
      var sessions := s.sessions[id := s.sessions[id].(deadline := None)];
      var back := if held.connection == Connected then room
                  else room.(seats := room.seats[s.sessions[id].seat := held.(connection := Connected, deadline := None)],
                             revision := room.revision + 1);
      MemberStays(s, id, Touched(SyncedIfPlaying(TransferredHost(back, sessions)), t), sessions, t);
    }
  }

  lemma DisconnectedStays(s: Service, id: SessionId, t: Clock, code: RoomCode)
    requires Inv(s) && (IsMember(s, id) ==> s.sessions[id].roomCode == code)
    ensures OthersStay(s, code, MarkDisconnected(s, id, t).service)
  {
    hide Inv, OthersStay, Save, SyncedIfPlaying, HoldsSession;
    NothingStays(s, code);
    if IsMember(s, id) {
      var i := s.sessions[id].seat;
      var room, seat, deadline := s.rooms[code], s.rooms[code].seats[i], Some(t.now + t.reconnectGrace);
      var away := room.(seats := room.seats[i := seat.(connection := Reconnecting, deadline := deadline)], revision := room.revision + 1);
      MemberStays(s, id, room, s.sessions, t);
      MemberStays(s, id, SyncedIfPlaying(away), s.sessions[id := s.sessions[id].(deadline := deadline)], t);
    }
  }

  // Steps that change no session.
  lemma SeatStepStays(s: Service, step: Step, t: Clock, code: RoomCode)
    requires Inv(s) && (Concerned(s, step).Some? ==> Concerned(s, step).value == code)
    requires step.ReadyStep? || step.AiSeatStep? || step.SnapshotStep? || step.StartStep? || step.ReplaceStep?
    ensures OthersStay(s, code, Take(s, step, t).service)
  {
    hide Inv, OthersStay, BeforeSave, SyncedIfPlaying, Touched, HoldsSession, StartReady, PresenceLifecycle, Isolated;
    NothingStays(s, code);
    SelfIsolated(s, code);
    forall room ensures OthersStay(s, code, Save(s, code, room, s.sessions, t).service) {
      SavedStays(s, code, room, s.sessions, t);
    }
  }

  lemma RecoveredStays(s: Service, record: Record, t: Clock)
    requires Inv(s) && Possible(s, RecoverStep(record))
    ensures OthersStay(s, record.roomCode, RecoverRoom(s, record, t).service)
  {
    hide Inv, OthersStay, Save, SyncedIfPlaying, HoldsSession, AggregateValid, RecoveredSessions, RecoveredSeats, Isolated;
    NothingStays(s, record.roomCode);
    RecoveredIsolated(s, record, t);
    var room := Room(record.revision, record.host, RecoveredSeats(record.seats, record.sessions, t), record.idleDeadline,
                     record.abandonedDeadline, record.game);
    SavedStays(s, record.roomCode, SyncedIfPlaying(room), RecoveredSessions(s, record, t), t);
  }

  // While anybody is connected the host's session is alive.
  predicate HostAlive(room: Room, sessions: map<SessionId, Stored>) {
    room.host in sessions || FirstConnected(room.seats, 0).None?
  }

  ghost predicate HostsAlive(s: Service) {
    forall code :: code in s.rooms ==> HostAlive(s.rooms[code], s.sessions)
  }

  lemma {:induction false} FirstConnectedIs(seats: seq<Seat>, i: nat)
    requires i <= |seats|
    ensures FirstConnected(seats, i).Some? <==> exists j :: i <= j < |seats| && seats[j].HumanSeat? && seats[j].connection == Connected
    ensures FirstConnected(seats, i).Some? ==>
              exists j :: i <= j < |seats| && seats[j].HumanSeat? && seats[j].connection == Connected
                          && seats[j].session == FirstConnected(seats, i).value
    decreases |seats| - i
  {
    if i < |seats| && !(seats[i].HumanSeat? && seats[i].connection == Connected) {
      FirstConnectedIs(seats, i + 1);
    }
  }

  // A connected member's session is stored.
  lemma ConnectedIsStored(code: RoomCode, room: Room, sessions: map<SessionId, Stored>)
    requires SeatsInv(code, room, sessions)
    ensures FirstConnected(room.seats, 0).Some? ==> FirstConnected(room.seats, 0).value in sessions
  {
    hide OriginalsValid, CachesValid, FirstConnected;
    FirstConnectedIs(room.seats, 0);
    if FirstConnected(room.seats, 0).Some? {
      var j :| 0 <= j < |room.seats| && room.seats[j].HumanSeat? && room.seats[j].connection == Connected
               && room.seats[j].session == FirstConnected(room.seats, 0).value;
      assert SeatMatches(code, j, room.seats[j], sessions);
    }
  }

  lemma LobbyHostAlive(code: RoomCode, room: Room, sessions: map<SessionId, Stored>)
    requires SeatsInv(code, room, sessions) && room.game.None?
    ensures HostAlive(room, sessions)
  {
    hide OriginalsValid, CachesValid, FirstConnected;
    var i :| 0 <= i < |room.seats| && room.seats[i].HumanSeat? && room.seats[i].session == room.host;
    assert SeatMatches(code, i, room.seats[i], sessions);
  }

  // What members see of a Room: its revision, seats and host, and how far it is.
  datatype RoomStatus = Waiting | Playing | Over

  datatype Face = Face(revision: nat, seats: seq<Seat>, host: SessionId, status: RoomStatus)

  function StatusOf(game: Option<RoomGame>): RoomStatus {
    match game
    case None => Waiting
    case Some(played) => if played.finished then Over else Playing
  }

  function FaceOf(room: Room): Face {
    Face(room.revision, room.seats, room.host, StatusOf(room.game))
  }

  // Saving, touching and synchronizing leave the face alone.
  lemma FacesKept(t: Clock)
    ensures forall room {:trigger BeforeSave(room, t)} :: FaceOf(BeforeSave(room, t)) == FaceOf(room)
    ensures forall room {:trigger Touched(room, t)} :: FaceOf(Touched(room, t)) == FaceOf(room)
    ensures forall room {:trigger SyncedIfPlaying(room)} :: FaceOf(SyncedIfPlaying(room)) == FaceOf(room)
  {
    hide GoneSeats;
  }

  // A new revision, or the same face.
  predicate Revised(before: Room, after: Room) {
    after.revision == before.revision + 1 || FaceOf(after) == FaceOf(before)
  }

  ghost predicate RoomRevised(s: Service, code: RoomCode, after: Service) {
    code in s.rooms && code in after.rooms ==> Revised(s.rooms[code], after.rooms[code])
  }

  lemma EntryRevised(s: Service, step: Step, t: Clock)
    requires hide *; Possible(s, step) && (step.CreateStep? || step.JoinStep?)
    ensures RoomRevised(s, step.code, Take(s, step, t).service)
  {
    hide BeforeSave, Touched, NameTaken, FirstEmpty, FreshSession;
    FacesKept(t);
  }

  lemma SeatRevised(s: Service, step: Step, t: Clock, code: RoomCode)
    requires hide *; Possible(s, step) && (Concerned(s, step).Some? ==> Concerned(s, step).value == code)
    requires step.ReadyStep? || step.AiSeatStep? || step.SnapshotStep? || step.StartStep? || step.ReplaceStep? || step.DisconnectStep?
    ensures RoomRevised(s, code, Take(s, step, t).service)
  {
    hide BeforeSave, Touched, SyncedIfPlaying, StartReady, PresenceLifecycle;
    FacesKept(t);
  }

  lemma ExpiredRevised(s: Service, id: SessionId, t: Clock)
    requires IsMember(s, id)
    ensures RoomRevised(s, s.sessions[id].roomCode, Expire(s, id, t).service)
    ensures RoomRevised(s, s.sessions[id].roomCode, Vacated(s, s.sessions[id].roomCode, s.sessions[id].seat, id, t).service)
  {
    hide BeforeSave, Touched, SyncedIfPlaying, FirstConnected, AnySession;
    FacesKept(t);
  }

  lemma ResumedRevised(s: Service, code: RoomCode, id: SessionId, seat: nat, digest: string, t: Clock)
    requires Inv(s) && HostsAlive(s) && IsMember(s, id)
    ensures RoomRevised(s, s.sessions[id].roomCode, Resume(s, code, id, seat, digest, t).service)
  {
    hide Inv, HostsAlive, BeforeSave, Touched, SyncedIfPlaying, Expire;
    FacesKept(t);
    ExpiredRevised(s, id, t);
    var room, held := s.rooms[s.sessions[id].roomCode], s.rooms[s.sessions[id].roomCode].seats[s.sessions[id].seat];
    if held.connection == Connected {
      MemberHasHost(s, id);
    }
  }

  // With a connected member the host's session is stored, so nothing passes the role on.
  lemma MemberHasHost(s: Service, id: SessionId)
    requires HostsAlive(s) && IsMember(s, id)
    requires s.rooms[s.sessions[id].roomCode].seats[s.sessions[id].seat].connection == Connected
    ensures s.rooms[s.sessions[id].roomCode].host in s.sessions
  {
    hide FirstConnected;
    FirstConnectedIs(s.rooms[s.sessions[id].roomCode].seats, 0);
  }

  // A move that ends the game.
  predicate EndsGame(s: Service, step: Step, code: RoomCode) {
    && step.PlayStep? && step.code == code && code in s.rooms && s.rooms[code].game.Some?
    && Fits(s.rooms[code].game.value, step.deed)
    && StatusOf(s.rooms[code].game) == Playing && StatusOf(Some(AfterDeed(s.rooms[code].game.value, step.deed))) == Over
  }

  // No step changes what members see of a Room without giving it a new revision, and none
  // skips a revision, but for one: the move that ends the game shows it over under the revision
  // it had, until the end is announced.
  lemma NoSilentChange(s: Service, step: Step, t: Clock, code: RoomCode)
    requires Inv(s) && HostsAlive(s) && Possible(s, step)
    ensures RoomRevised(s, code, Take(s, step, t).service) <==> !EndsGame(s, step, code)
    ensures EndsGame(s, step, code) ==>
              var after := Take(s, step, t).service;
              && code in after.rooms && FaceOf(after.rooms[code]) == FaceOf(s.rooms[code]).(status := Over)
              && Possible(after, AnnounceStep(code))
              && (var told := Take(after, AnnounceStep(code), t).service;
                  && code in told.rooms
                  && FaceOf(told.rooms[code]) == FaceOf(after.rooms[code]).(revision := s.rooms[code].revision + 1))
  {
    hide Inv, HostsAlive, Create, Join, Resume, MarkDisconnected, SetReady, SetAiSeat, RequestSnapshot, Start, ReplaceExpired,
      Expire, Vacated, RecoverRoom, FreshSession, AggregateValid, BeforeSave, PresenceLifecycle, Isolated, SameEntry;
    if Concerned(s, step) != Some(code) {
      Elsewhere(s, step, t, code);
    } else {
      match step {
        case CreateStep(_, _, _, _, _) => EntryRevised(s, step, t);
        case JoinStep(_, _, _, _, _) => EntryRevised(s, step, t);
        case ResumeStep(asked, id, seat, digest) => ResumedRevised(s, asked, id, seat, digest, t);
        case LeaveStep(id) => ExpiredRevised(s, id, t);
        case ExpireStep(id) => ExpiredRevised(s, id, t);
        case CloseStep(_, _, _) =>
        case IdleStep(_) =>
        case AbandonStep(_) =>
        case PlayStep(_, _) => PlayRevised(s, step, t);
        case AnnounceStep(_) => FacesKept(t);
        case RecoverStep(_) =>
        case _ => SeatRevised(s, step, t, code);
      }
    }
  }

  lemma StaysOver(game: RoomGame, deed: Deed)
    requires Fits(game, deed) && game.finished
    ensures AfterDeed(game, deed).finished
  {
  }

  lemma PlayRevised(s: Service, step: Step, t: Clock)
    requires Possible(s, step) && step.PlayStep?
    ensures var code, after := step.code, Take(s, step, t).service;
            && (RoomRevised(s, code, after) <==> !EndsGame(s, step, code))
            && (EndsGame(s, step, code) ==>
                  && code in after.rooms && FaceOf(after.rooms[code]) == FaceOf(s.rooms[code]).(status := Over)
                  && (var told := Take(after, AnnounceStep(code), t).service;
                      && code in told.rooms
                      && FaceOf(told.rooms[code]) == FaceOf(after.rooms[code]).(revision := s.rooms[code].revision + 1)))
  {
    hide BeforeSave, AfterDeed, IsPlayer, HasCommand, CachedFor;
    FacesKept(t);
    if s.rooms[step.code].game.value.finished {
      StaysOver(s.rooms[step.code].game.value, step.deed);
    }
  }

  // A Room the step is not about.
  lemma Elsewhere(s: Service, step: Step, t: Clock, code: RoomCode)
    requires hide *; Inv(s) && Possible(s, step) && Concerned(s, step) != Some(code)
    ensures var after := Take(s, step, t).service;
            && (code in s.rooms <==> code in after.rooms)
            && (code in s.rooms ==> after.rooms[code] == s.rooms[code]
                                    && forall id :: HoldsSession(s.rooms[code].seats, id) ==> SameEntry(s.sessions, after.sessions, id))
  {
    hide Inv, Possible, Take, Concerned, HoldsSession, SameEntry;
    var other := if Concerned(s, step).Some? then Concerned(s, step).value else code + ['x'];
    assert other != code;
    OneRoomMoves(s, step, t, other);
  }

  ghost predicate RoomHostAlive(code: RoomCode, after: Service) {
    code in after.rooms ==> HostAlive(after.rooms[code], after.sessions)
  }

  // A game's host role passes on in time.
  lemma TransferIsAlive(code: RoomCode, room: Room, final: Room, sessions: map<SessionId, Stored>)
    requires FaceOf(final) == FaceOf(TransferredHost(room, sessions)) && SeatsInv(code, final, sessions) && room.game.Some?
    ensures HostAlive(final, sessions)
  {
    hide SeatsInv, FirstConnected;
    ConnectedIsStored(code, final, sessions);
  }

  lemma TransferPlays(room: Room, sessions: map<SessionId, Stored>)
    ensures TransferredHost(room, sessions).game == room.game
  {
  }

  lemma RoomStillHolds(s: Service, code: RoomCode)
    requires Inv(s) && code in s.rooms
    ensures SeatsInv(code, s.rooms[code], s.sessions)
  {
    hide Inv, SeatsInv;
    RoomIs(s, code);
  }

  lemma ExpiredAlive(s: Service, id: SessionId, t: Clock)
    requires IsMember(s, id) && Inv(Expire(s, id, t).service)
    ensures RoomHostAlive(s.sessions[id].roomCode, Expire(s, id, t).service)
  {
    hide Inv, BeforeSave, Touched, SyncedIfPlaying, TransferredHost, SeatsInv, HostAlive, AnySession, FirstConnected, AnyHuman;
    FacesKept(t);
    var code, i := s.sessions[id].roomCode, s.sessions[id].seat;
    var after := Expire(s, id, t).service;
    if code in after.rooms {
      RoomStillHolds(after, code);
      if s.rooms[code].game.None? {
        LobbyHostAlive(code, after.rooms[code], after.sessions);
      } else {
        var room := s.rooms[code];
        var gone := room.(seats := room.seats[i := room.seats[i].(connection := Disconnected)], revision := room.revision + 1);
        TransferIsAlive(code, gone, after.rooms[code], after.sessions);
      }
    }
  }

  lemma ResumedAlive(s: Service, asked: RoomCode, id: SessionId, seat: nat, digest: string, t: Clock)
    requires IsMember(s, id) && RoomHostAlive(s.sessions[id].roomCode, s) && Inv(Resume(s, asked, id, seat, digest, t).service)
    ensures RoomHostAlive(s.sessions[id].roomCode, Resume(s, asked, id, seat, digest, t).service)
  {
    hide Inv, BeforeSave, Touched, SyncedIfPlaying, Expire, TransferredHost, SeatsInv, HostAlive;
    FacesKept(t);
    var code := s.sessions[id].roomCode;
    var after := Resume(s, asked, id, seat, digest, t).service;
    if asked == code && s.sessions[id].seat == seat && s.sessions[id].tokenDigest == digest {
      if s.sessions[id].deadline.Some? && t.now >= s.sessions[id].deadline.value {
        ExpiredAlive(s, id, t);
      } else {
        RoomStillHolds(after, code);
        var room, held := s.rooms[code], s.rooms[code].seats[seat];
        var back := if held.connection == Connected then room
                    else room.(seats := room.seats[seat := held.(connection := Connected, deadline := None)], revision := room.revision + 1);
        TransferPlays(back, after.sessions);
        if after.rooms[code].game.None? {
          LobbyHostAlive(code, after.rooms[code], after.sessions);
        } else {
          TransferIsAlive(code, back, after.rooms[code], after.sessions);
        }
      }
    }
  }

  // A member who goes away does not take the role along.
  lemma DisconnectedAlive(s: Service, id: SessionId, t: Clock)
    requires IsMember(s, id) && RoomHostAlive(s.sessions[id].roomCode, s)
    ensures RoomHostAlive(s.sessions[id].roomCode, MarkDisconnected(s, id, t).service)
  {
    hide BeforeSave, SyncedIfPlaying, FirstConnected;
    FacesKept(t);
    var code, i := s.sessions[id].roomCode, s.sessions[id].seat;
    var room := s.rooms[code];
    var away := room.seats[i := room.seats[i].(connection := Reconnecting, deadline := Some(t.now + t.reconnectGrace))];
    FirstConnectedIs(room.seats, 0);
    FirstConnectedIs(away, 0);
  }

  lemma SeatAlive(s: Service, step: Step, t: Clock, code: RoomCode)
    requires hide *; Inv(s) && Possible(s, step) && RoomHostAlive(code, s) && Concerned(s, step) == Some(code)
    requires step.SnapshotStep? || step.StartStep? || step.ReplaceStep? || step.PlayStep? || step.AnnounceStep?
    ensures RoomHostAlive(code, Take(s, step, t).service)
  {
    hide Inv, BeforeSave, Touched, SyncedIfPlaying, StartReady, PresenceLifecycle, FirstConnected, Fits, AfterDeed;
    FacesKept(t);
    if step.ReplaceStep? && IsMember(s, step.id) && s.rooms[code].host == step.id {
      assert s.rooms[code].host in s.sessions;
    }
  }

  lemma RecoveredAlive(s: Service, record: Record, t: Clock)
    requires Possible(s, RecoverStep(record)) && record.roomCode !in s.rooms
    ensures RoomHostAlive(record.roomCode, RecoverRoom(s, record, t).service)
  {
    hide BeforeSave, SyncedIfPlaying, FirstConnected, FreshSession, RecoveredSessions, GameValid, FindSaved;
    FacesKept(t);
    var seats := RecoveredSeats(record.seats, record.sessions, t);
    FirstConnectedIs(seats, 0);
    forall i: nat | i < |seats| && seats[i].HumanSeat? ensures seats[i].connection != Connected {
      FindSavedIs(record.sessions, record.seats[i].session);
      assert RecordSeatValid(record, i);
    }
  }

  // Every step keeps a live host wherever somebody is connected.
  lemma HostStaysAlive(s: Service, step: Step, t: Clock)
    requires hide *; Inv(s) && HostsAlive(s) && Possible(s, step)
    ensures Inv(Take(s, step, t).service) && HostsAlive(Take(s, step, t).service)
  {
    hide Inv, Take, Possible, Concerned, HostAlive, Good;
    StepIsGood(s, step, t);
    var after := Take(s, step, t).service;
    assert Inv(after) by {
      GoodIsInv(Take(s, step, t));
    }
    forall code | code in after.rooms ensures HostAlive(after.rooms[code], after.sessions) {
      OneHostAlive(s, step, t, code);
    }
  }

  lemma GoodIsInv(o: RoomOutcome)
    requires Good(o)
    ensures Inv(o.service)
  {
    hide Inv, AggregateValid, RecordOf;
  }

  lemma OneHostAlive(s: Service, step: Step, t: Clock, code: RoomCode)
    requires hide *; Inv(s) && HostsAlive(s) && Possible(s, step) && Inv(Take(s, step, t).service)
    ensures RoomHostAlive(code, Take(s, step, t).service)
  {
    hide Inv, Take, Possible, HostAlive, SeatsInv, HoldsSession, SameEntry, IsMember;
    var after := Take(s, step, t).service;
    if code in after.rooms {
      RoomStillHolds(after, code);
      if after.rooms[code].game.None? {
        LobbyHostAlive(code, after.rooms[code], after.sessions);
      } else if Concerned(s, step) != Some(code) {
        Elsewhere(s, step, t, code);
        SeatedHost(s, code, after);
      } else {
        PlayingHostAlive(s, step, t, code);
      }
    }
  }

  lemma SeatedHost(s: Service, code: RoomCode, after: Service)
    requires Inv(s) && code in s.rooms && HostAlive(s.rooms[code], s.sessions)
    requires forall id :: HoldsSession(s.rooms[code].seats, id) ==> SameEntry(s.sessions, after.sessions, id)
    ensures HostAlive(s.rooms[code], after.sessions)
  {
    hide Inv, FirstConnected, HoldsSession;
    RoomStillHolds(s, code);
    hide OriginalsValid, CachesValid, SeatMatches;
  }

  lemma PlayingHostAlive(s: Service, step: Step, t: Clock, code: RoomCode)
    requires hide *; Inv(s) && HostsAlive(s) && Possible(s, step) && Concerned(s, step) == Some(code)
    requires var after := Take(s, step, t).service; Inv(after) && code in after.rooms && after.rooms[code].game.Some?
    ensures RoomHostAlive(code, Take(s, step, t).service)
  {
    hide Inv, HostAlive, Create, Join, Resume, MarkDisconnected, SetReady, SetAiSeat, RequestSnapshot, Start, ReplaceExpired,
      Leave, Expire, RecoverRoom, FreshSession, AggregateValid, BeforeSave, PresenceLifecycle, Isolated, SameEntry;
    match step {
      case ResumeStep(asked, id, seat, digest) => ResumedAlive(s, asked, id, seat, digest, t);
      case DisconnectStep(id) => DisconnectedAlive(s, id, t);
      case ExpireStep(id) =>
        if s.sessions[id].deadline.Some? && s.sessions[id].deadline.value <= t.now {
          ExpiredAlive(s, id, t);
        }
      case RecoverStep(record) => RecoveredAlive(s, record, t);
      case SnapshotStep(_) => SeatAlive(s, step, t, code);
      case StartStep(_, _, _, _) => SeatAlive(s, step, t, code);
      case ReplaceStep(_, _, _, _, _) => SeatAlive(s, step, t, code);
      case PlayStep(_, _) => SeatAlive(s, step, t, code);
      case AnnounceStep(_) => SeatAlive(s, step, t, code);
      case CloseStep(_, _, _) =>
      case IdleStep(_) =>
      case AbandonStep(_) =>
      case _ => LobbyStepAlive(s, step, t, code);
    }
  }

  // Lobby steps refuse a Room that plays.
  lemma LobbyStepAlive(s: Service, step: Step, t: Clock, code: RoomCode)
    requires hide *; HostsAlive(s) && Possible(s, step) && Concerned(s, step) == Some(code)
    requires step.CreateStep? || step.JoinStep? || step.ReadyStep? || step.AiSeatStep? || step.LeaveStep?
    requires var after := Take(s, step, t).service; code in after.rooms && after.rooms[code].game.Some?
    ensures RoomHostAlive(code, Take(s, step, t).service)
  {
    hide HostAlive, BeforeSave, Touched, NameTaken, FirstEmpty, FirstConnected, AnyHuman, FreshSession;
    FacesKept(t);
  }

  lemma PresenceKept(t: Clock)
    ensures forall room: Room {:trigger BeforeSave(room, t)} :: room.game.Some? && room.game.value.disconnectedSeats == GoneSeats(room.seats, 0) ==>
              BeforeSave(room, t).game.Some? && BeforeSave(room, t).game.value.disconnectedSeats == GoneSeats(room.seats, 0)
    ensures forall room: Room {:trigger SyncedIfPlaying(room)} :: room.game.Some? ==>
              SyncedIfPlaying(room).game.Some? && SyncedIfPlaying(room).game.value.disconnectedSeats == GoneSeats(room.seats, 0)
    ensures forall room: Room {:trigger Touched(room, t)} :: Touched(room, t).game == room.game
  {
    hide GoneSeats;
  }

  // A member who drops out and resumes in time with the right token finds everything as it
  // was: seats, host, sessions and the game's presence, two revisions on.
  lemma ResumeUndoesDisconnect(s: Service, id: SessionId, t: Clock, u: Clock)
    requires Inv(s) && HostsAlive(s) && IsMember(s, id) && u.now < t.now + t.reconnectGrace
    requires s.rooms[s.sessions[id].roomCode].seats[s.sessions[id].seat].connection == Connected
    ensures var stored := s.sessions[id];
            var away := MarkDisconnected(s, id, t);
            var back := Resume(away.service, stored.roomCode, id, stored.seat, stored.tokenDigest, u);
            var room := s.rooms[stored.roomCode];
            && away.error.None? && back.error.None? && back.service.sessions == s.sessions
            && back.service.rooms.Keys == s.rooms.Keys && stored.roomCode in back.service.rooms
            && FaceOf(back.service.rooms[stored.roomCode]) == FaceOf(room).(revision := room.revision + 2)
            && (room.game.Some? ==>
                  back.service.rooms[stored.roomCode].game.value.disconnectedSeats == room.game.value.disconnectedSeats)
  {
    hide Inv, BeforeSave, Touched, SyncedIfPlaying, FirstConnected, HostsAlive, GoneSeats;
    MemberHasHost(s, id);
    MemberFacts(s, id);
    FacesKept(t);
    FacesKept(u);
    PresenceKept(t);
    PresenceKept(u);
  }

  // Entering and leaving a lobby.

  ghost predicate IsFirstEmpty(seats: seq<Seat>, i: nat) {
    i < |seats| && seats[i].EmptySeat? && forall j :: 0 <= j < i ==> !seats[j].EmptySeat?
  }

  lemma {:induction false} FirstEmptyFacts(seats: seq<Seat>, i: nat)
    requires i <= |seats| && forall j :: 0 <= j < i ==> !seats[j].EmptySeat?
    ensures FirstEmpty(seats, i).Some? ==> IsFirstEmpty(seats, FirstEmpty(seats, i).value)
    ensures FirstEmpty(seats, i).None? ==> forall j :: 0 <= j < |seats| ==> !seats[j].EmptySeat?
    decreases |seats| - i
  {
    if i < |seats| && !seats[i].EmptySeat? {
      FirstEmptyFacts(seats, i + 1);
    }
  }

  // A newcomer gets the first empty seat; without one, or with a taken name, nothing happens.
  lemma JoinTakesFirstSeat(s: Service, code: RoomCode, id: SessionId, digest: string, name: string, valid: bool, t: Clock)
    requires code in s.rooms
    ensures var o, room := Join(s, code, id, digest, name, valid, t), s.rooms[code];
            if room.game.Some? || !valid || NameTaken(room.seats, name) || (forall i :: 0 <= i < |room.seats| ==> !room.seats[i].EmptySeat?)
            then o.error.Some? && o.service == s && o.saved.None?
            else
              && o.error.None? && o.saved == Some(code) && code in o.service.rooms
              && exists i: nat :: IsFirstEmpty(room.seats, i)
                   && FaceOf(o.service.rooms[code]) == Face(room.revision + 1, room.seats[i := NewHuman(id, name)], room.host, Waiting)
                   && o.service.sessions == s.sessions[id := Stored(code, i, digest, None)]
  {
    hide FirstEmpty, NameTaken, Touched, BeforeSave;
    var room := s.rooms[code];
    FacesKept(t);
    FirstEmptyFacts(room.seats, 0);
    if FirstEmpty(room.seats, 0).Some? {
      assert IsFirstEmpty(room.seats, FirstEmpty(room.seats, 0).value);
    }
  }

  ghost predicate OtherConnected(seats: seq<Seat>, i: nat, id: SessionId) {
    exists j :: 0 <= j < |seats| && j != i && seats[j].HumanSeat? && seats[j].connection == Connected && seats[j].session == id
  }

  // A lobby outlives a leaving member exactly if another Human stays, and, when the leaver was
  // the host, one who is connected and takes over.
  lemma LeavingALobby(s: Service, id: SessionId, t: Clock)
    requires Inv(s) && IsMember(s, id) && s.rooms[s.sessions[id].roomCode].game.None?
    ensures var code, i := s.sessions[id].roomCode, s.sessions[id].seat;
            var room, after := s.rooms[code], Leave(s, id, t).service;
            && id !in after.sessions
            && (code in after.rooms <==>
                  && (exists j :: 0 <= j < |room.seats| && j != i && room.seats[j].HumanSeat?)
                  && (room.host == id ==> exists heir :: OtherConnected(room.seats, i, heir)))
            && (code in after.rooms ==>
                  && after.rooms[code].seats == room.seats[i := EmptySeat] && after.rooms[code].revision == room.revision + 1
                  && (if room.host == id then OtherConnected(room.seats, i, after.rooms[code].host)
                      else after.rooms[code].host == room.host))
  {
    hide Inv, FirstConnected, BeforeSave, Touched, HoldsSession, AnyHuman, OtherConnected;
    FacesKept(t);
    var code, i := s.sessions[id].roomCode, s.sessions[id].seat;
    var seats := s.rooms[code].seats;
    HeirIs(seats, i);
    OthersAre(seats, i);
    HeldByMember(s, id);
  }

  lemma HeldByMember(s: Service, id: SessionId)
    requires IsMember(s, id)
    ensures HoldsSession(s.rooms[s.sessions[id].roomCode].seats, id)
  {
  }

  lemma OthersAre(seats: seq<Seat>, i: nat)
    requires i < |seats|
    ensures AnyHuman(seats[i := EmptySeat]) <==> exists j :: 0 <= j < |seats| && j != i && seats[j].HumanSeat?
  {
    var left := seats[i := EmptySeat];
    if AnyHuman(left) {
      var j :| 0 <= j < |left| && left[j].HumanSeat?;
      assert j != i && seats[j].HumanSeat?;
    }
    if j :| 0 <= j < |seats| && j != i && seats[j].HumanSeat? {
      assert left[j].HumanSeat?;
    }
  }

  lemma HeirIs(seats: seq<Seat>, i: nat)
    requires i < |seats|
    ensures FirstConnected(seats[i := EmptySeat], 0).Some? <==> exists heir :: OtherConnected(seats, i, heir)
    ensures FirstConnected(seats[i := EmptySeat], 0).Some? ==>
              OtherConnected(seats, i, FirstConnected(seats[i := EmptySeat], 0).value)
  {
    hide FirstConnected, OtherConnected;
    var left := seats[i := EmptySeat];
    if FirstConnected(left, 0).Some? {
      HeirFound(seats, i);
    }
    if heir :| OtherConnected(seats, i, heir) {
      HeirSeen(seats, i, heir);
    }
  }

  lemma HeirFound(seats: seq<Seat>, i: nat)
    requires i < |seats| && FirstConnected(seats[i := EmptySeat], 0).Some?
    ensures OtherConnected(seats, i, FirstConnected(seats[i := EmptySeat], 0).value)
  {
    hide FirstConnected;
    var left := seats[i := EmptySeat];
    FirstConnectedIs(left, 0);
    var j :| 0 <= j < |left| && left[j].HumanSeat? && left[j].connection == Connected
             && left[j].session == FirstConnected(left, 0).value;
    assert j != i && seats[j] == left[j];
  }

  lemma HeirSeen(seats: seq<Seat>, i: nat, heir: SessionId)
    requires i < |seats| && OtherConnected(seats, i, heir)
    ensures FirstConnected(seats[i := EmptySeat], 0).Some?
  {
    hide FirstConnected;
    var left := seats[i := EmptySeat];
    FirstConnectedIs(left, 0);
    var j :| 0 <= j < |seats| && j != i && seats[j].HumanSeat? && seats[j].connection == Connected && seats[j].session == heir;
    assert left[j] == seats[j];
  }
}
