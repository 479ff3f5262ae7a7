// The room operations as steps on the service's two maps, and the invariant they keep.

module RoomSteps {
  import opened Board
  import opened Sessions
  import opened Rooms

  datatype Service = Service(rooms: map<RoomCode, Room>, sessions: map<SessionId, Stored>)

  datatype RoomError =
    | ServerBusy | InvalidDisplayName | RoomNotFound | RoomNotWaiting | DisplayNameTaken | RoomFull | SessionInvalid | NotMember
    | NotHost | RevisionConflict | SeatUnavailable | StartConditionsNotMet | NoSuchGame | ReplacementNotAvailable

  // The state after an operation, the Room whose record went to the repository, and a refusal.
  datatype RoomOutcome = RoomOutcome(service: Service, saved: Option<RoomCode>, error: Option<RoomError>)

  datatype Clock = Clock(now: int, idleTtl: int, abandonedTtl: int, reconnectGrace: int, restartGrace: int)

  function Refuse(s: Service, error: RoomError): RoomOutcome {
    RoomOutcome(s, None, Some(error))
  }

  function Save(s: Service, code: RoomCode, room: Room, sessions: map<SessionId, Stored>, t: Clock): RoomOutcome {
    RoomOutcome(Service(s.rooms[code := BeforeSave(room, t)], sessions), Some(code), None)
  }

  // Presence follows the seats; the abandonment deadline stays only while a seat waits for
  // replacement or the game is finished.
  function Synchronized(room: Room): Room
    requires room.game.Some?
  {
    var gone := GoneSeats(room.seats, 0);
    var waiting := exists k :: 0 <= k < |gone| && gone[k].replacementRequired;
    var abandoned := if !waiting && !room.game.value.finished then None else room.abandonedDeadline;
    room.(abandonedDeadline := abandoned,
          game := Some(room.game.value.(disconnectedSeats := gone, abandonedDeadline := abandoned)))
  }

  function SyncedIfPlaying(room: Room): Room {
    if room.game.None? then room else Synchronized(room)
  }

  // A finished game gets its cleanup deadline at the first save.
  function BeforeSave(room: Room, t: Clock): Room {
    if room.game.Some? && room.game.value.finished && room.abandonedDeadline.None?
    then Synchronized(room.(abandonedDeadline := Some(t.now + t.abandonedTtl)))
    else room
  }

  function Touched(room: Room, t: Clock): Room {
    if room.game.Some? then room else room.(idleDeadline := t.now + t.idleTtl)
  }

  function FirstEmpty(seats: seq<Seat>, i: nat): Option<nat>
    requires i <= |seats|
    decreases |seats| - i
  {
    if i == |seats| then None else if seats[i].EmptySeat? then Some(i) else FirstEmpty(seats, i + 1)
  }

  function FirstConnected(seats: seq<Seat>, i: nat): Option<SessionId>
    requires i <= |seats|
    decreases |seats| - i
  {
    if i == |seats| then None
    else if seats[i].HumanSeat? && seats[i].connection == Connected then Some(seats[i].session)
    else FirstConnected(seats, i + 1)
  }

  predicate NameTaken(seats: seq<Seat>, name: string) {
    exists i :: 0 <= i < |seats| && seats[i].HumanSeat? && seats[i].displayName == name
  }

  predicate AnyHuman(seats: seq<Seat>) {
    exists i :: 0 <= i < |seats| && seats[i].HumanSeat?
  }

  predicate AnySession(seats: seq<Seat>, sessions: map<SessionId, Stored>) {
    exists i :: 0 <= i < |seats| && seats[i].HumanSeat? && seats[i].session in sessions
  }

  // A Room disappears with its Humans' sessions.
  function WithoutRoom(s: Service, code: RoomCode): Service
    requires code in s.rooms
  {
    var seats := s.rooms[code].seats;
    Service(s.rooms - {code}, map id | id in s.sessions && !HoldsSession(seats, id) :: s.sessions[id])
  }

  // Expiry hands a missing host's role to the first connected Human.
  function TransferredHost(room: Room, sessions: map<SessionId, Stored>): Room {
    if room.game.None? || room.host in sessions then room
    else
      match FirstConnected(room.seats, 0)
      case None => room
      case Some(next) => room.(host := next)
  }

  // The session of a member, with its Room and seat in place.
  predicate IsMember(s: Service, id: SessionId) {
    && id in s.sessions && s.sessions[id].roomCode in s.rooms
    && s.sessions[id].seat < |s.rooms[s.sessions[id].roomCode].seats|
    && s.rooms[s.sessions[id].roomCode].seats[s.sessions[id].seat].HumanSeat?
    && s.rooms[s.sessions[id].roomCode].seats[s.sessions[id].seat].session == id
  }

  function NewHuman(id: SessionId, name: string): Seat {
    HumanSeat(id, name, false, Connected, None)
  }

  // Lobby operations.

  function Create(s: Service, code: RoomCode, id: SessionId, digest: string, name: string, valid: bool, t: Clock): RoomOutcome {
    if |s.rooms| >= MAX_ROOMS then Refuse(s, ServerBusy)
    else if !valid then Refuse(s, InvalidDisplayName)
    else
      var room := Room(0, id, [NewHuman(id, name), EmptySeat, EmptySeat, EmptySeat], t.now + t.idleTtl, None, None);
      Save(s, code, room, s.sessions[id := Stored(code, 0, digest, None)], t)
  }

  function Join(s: Service, code: RoomCode, id: SessionId, digest: string, name: string, valid: bool, t: Clock): RoomOutcome {
    if code !in s.rooms then Refuse(s, RoomNotFound)
    else
      var room := s.rooms[code];
      if room.game.Some? then Refuse(s, RoomNotWaiting)
      else if !valid then Refuse(s, InvalidDisplayName)
      else if NameTaken(room.seats, name) then Refuse(s, DisplayNameTaken)
      else if FirstEmpty(room.seats, 0).None? then Refuse(s, RoomFull)
      else
        var i := FirstEmpty(room.seats, 0).value;
        if i >= |room.seats| then Refuse(s, RoomFull)
        else
          Save(s, code, Touched(room.(seats := room.seats[i := NewHuman(id, name)], revision := room.revision + 1), t),
               s.sessions[id := Stored(code, i, digest, None)], t)
  }

  // The reconnect deadline of a session has passed.
  function Expire(s: Service, id: SessionId, t: Clock): RoomOutcome
    requires IsMember(s, id)
  {
    var code, i := s.sessions[id].roomCode, s.sessions[id].seat;
    var room, sessions := s.rooms[code], s.sessions - {id};
    if room.game.Some? then
      var gone := room.(seats := room.seats[i := room.seats[i].(connection := Disconnected)], revision := room.revision + 1);
      if !AnySession(gone.seats, sessions) then RoomOutcome(WithoutRoom(s, code), None, None)
      else
        var hosted := TransferredHost(gone, sessions);
        var scheduled := if hosted.abandonedDeadline.Some? then hosted
                         else hosted.(abandonedDeadline := Some(t.now + t.abandonedTtl));
        Save(s, code, SyncedIfPlaying(scheduled), sessions, t)
    else Vacated(s, code, i, id, t)
  }

  // A lobby seat is given up; without a connected heir the Room closes.
  function Vacated(s: Service, code: RoomCode, i: nat, id: SessionId, t: Clock): RoomOutcome
    requires code in s.rooms && i < |s.rooms[code].seats|
  {
    var sessions := s.sessions - {id};
    var room := s.rooms[code].(seats := s.rooms[code].seats[i := EmptySeat], revision := s.rooms[code].revision + 1);
    if !AnyHuman(room.seats) || (room.host == id && FirstConnected(room.seats, 0).None?)
    then RoomOutcome(WithoutRoom(s, code), None, None)
    else
      var hosted := if room.host == id then room.(host := FirstConnected(room.seats, 0).value) else room;
      Save(s, code, Touched(hosted, t), sessions, t)
  }

  function Resume(s: Service, code: RoomCode, id: SessionId, seat: nat, digest: string, t: Clock): RoomOutcome {
    if !IsMember(s, id) || s.sessions[id].roomCode != code || s.sessions[id].seat != seat || s.sessions[id].tokenDigest != digest
    then Refuse(s, SessionInvalid)
    else if s.sessions[id].deadline.Some? && t.now >= s.sessions[id].deadline.value
    then Expire(s, id, t).(error := Some(SessionInvalid))
    else
      var room, held := s.rooms[code], s.rooms[code].seats[seat];
      var sessions := s.sessions[id := s.sessions[id].(deadline := None)];
      var back := if held.connection == Connected then room
                  else room.(seats := room.seats[seat := held.(connection := Connected, deadline := None)], revision := room.revision + 1);
      Save(s, code, Touched(SyncedIfPlaying(TransferredHost(back, sessions)), t), sessions, t)
  }

  function MarkDisconnected(s: Service, id: SessionId, t: Clock): RoomOutcome {
    if !IsMember(s, id) then Refuse(s, NotMember)
    else
      var code, i := s.sessions[id].roomCode, s.sessions[id].seat;
      var room, seat := s.rooms[code], s.rooms[code].seats[i];
      if seat.connection == Reconnecting then Save(s, code, room, s.sessions, t)
      else
        var deadline := Some(t.now + t.reconnectGrace);
        var away := room.(seats := room.seats[i := seat.(connection := Reconnecting, deadline := deadline)], revision := room.revision + 1);
        Save(s, code, SyncedIfPlaying(away), s.sessions[id := s.sessions[id].(deadline := deadline)], t)
  }

  function SetReady(s: Service, id: SessionId, revision: nat, ready: bool, t: Clock): RoomOutcome {
    if !IsMember(s, id) then Refuse(s, NotMember)
    else
      var code, i := s.sessions[id].roomCode, s.sessions[id].seat;
      var room, seat := s.rooms[code], s.rooms[code].seats[i];
      if room.game.Some? then Refuse(s, RoomNotWaiting)
      else if room.revision != revision then Refuse(s, RevisionConflict)
      else if seat.connection != Connected then Refuse(s, NotMember)
      else if seat.ready == ready then Save(s, code, Touched(room, t), s.sessions, t)
      else
        Save(s, code, Touched(room.(seats := room.seats[i := seat.(ready := ready)], revision := room.revision + 1), t), s.sessions, t)
  }

  function SetAiSeat(s: Service, id: SessionId, revision: nat, i: nat, profile: Option<ProfileId>, t: Clock): RoomOutcome {
    if !IsMember(s, id) then Refuse(s, NotMember)
    else
      var code := s.sessions[id].roomCode;
      var room := s.rooms[code];
      if room.game.Some? then Refuse(s, RoomNotWaiting)
      else if room.host != id then Refuse(s, NotHost)
      else if room.revision != revision then Refuse(s, RevisionConflict)
      else if i >= |room.seats| || room.seats[i].HumanSeat? then Refuse(s, SeatUnavailable)
      else
        var wanted := if profile.None? then EmptySeat else AiSeat(profile.value);
        if room.seats[i] == wanted then Save(s, code, Touched(room, t), s.sessions, t)
        else Save(s, code, Touched(room.(seats := room.seats[i := wanted], revision := room.revision + 1), t), s.sessions, t)
  }

  function Leave(s: Service, id: SessionId, t: Clock): RoomOutcome {
    if !IsMember(s, id) then Refuse(s, NotMember)
    else
      var code, i := s.sessions[id].roomCode, s.sessions[id].seat;
      if s.rooms[code].game.Some? then Refuse(s, RoomNotWaiting) else Vacated(s, code, i, id, t)
  }

  function RequestSnapshot(s: Service, id: SessionId, t: Clock): RoomOutcome {
    if !IsMember(s, id) then Refuse(s, NotMember)
    else
      var code := s.sessions[id].roomCode;
      Save(s, code, Touched(s.rooms[code], t), s.sessions, t)
  }

  // Every seat filled, at least two Humans, all connected and ready.
  predicate StartReady(seats: seq<Seat>) {
    && (forall i :: 0 <= i < |seats| ==>
          !seats[i].EmptySeat? && (seats[i].HumanSeat? ==> seats[i].connection == Connected && seats[i].ready))
    && (exists i, j :: 0 <= i < j < |seats| && seats[i].HumanSeat? && seats[j].HumanSeat?)
  }

  function Start(s: Service, id: SessionId, revision: nat, gameId: string, cacheLimit: nat, t: Clock): RoomOutcome {
    if !IsMember(s, id) then Refuse(s, NotMember)
    else
      var code := s.sessions[id].roomCode;
      var room := s.rooms[code];
      if room.host != id then Refuse(s, NotHost)
      else if room.game.Some? then Refuse(s, RoomNotWaiting)
      else if room.revision != revision then Refuse(s, RevisionConflict)
      else if !StartReady(room.seats) then Refuse(s, StartConditionsNotMet)
      else
        var game := RoomGame(gameId, room.seats, map[], [], None, 0, false, false, cacheLimit, map[]);
        Save(s, code, room.(game := Some(game), revision := room.revision + 1), s.sessions, t)
  }

  // Operations on a running game.

  // The connected host, this game, this revision, and a seat whose grace has expired.
  function HostAuthority(s: Service, id: SessionId, gameId: string, revision: nat): Option<RoomError> {
    if !IsMember(s, id) then Some(NotMember)
    else
      var room := s.rooms[s.sessions[id].roomCode];
      var seat := room.seats[s.sessions[id].seat];
      if room.host != id || seat.connection != Connected then Some(NotHost)
      else if room.game.None? || room.game.value.gameId != gameId then Some(NoSuchGame)
      else if room.revision != revision then Some(RevisionConflict)
      else if PresenceLifecycle(room.game.value) != RecordPausedReplacement then Some(ReplacementNotAvailable)
      else None
  }

  function ReplaceExpired(s: Service, id: SessionId, gameId: string, revision: nat, i: nat, profile: ProfileId, t: Clock): RoomOutcome {
    var authority := HostAuthority(s, id, gameId, revision);
    if authority.Some? then Refuse(s, authority.value)
    else
      var code := s.sessions[id].roomCode;
      var room := s.rooms[code];
      if i >= |room.seats| || !room.seats[i].HumanSeat? || room.seats[i].connection != Disconnected
      then Refuse(s, ReplacementNotAvailable)
      else
        var game := room.game.value;
        var replaced := game.(replacements := game.replacements[i := profile], cache := game.cache - {room.seats[i].session});
        var next := room.(seats := room.seats[i := AiSeat(profile)], game := Some(replaced), revision := room.revision + 1);
        Save(s, code, SyncedIfPlaying(next), s.sessions, t)
  }

  function CloseGame(s: Service, id: SessionId, gameId: string, revision: nat): RoomOutcome {
    var authority := HostAuthority(s, id, gameId, revision);
    if authority.Some? then Refuse(s, authority.value)
    else RoomOutcome(WithoutRoom(s, s.sessions[id].roomCode), None, None)
  }

  // Play. A Human's command that reaches the engine is recorded in the cache of the player; the
  // AI moves, or fails the game.
  datatype Deed =
    | HumanPlays(player: SessionId, commandId: string, accepted: bool, over: bool)
    | AiPlays(over: bool)
    | AiFails

  // An original Human whom no AI has replaced.
  predicate IsPlayer(game: RoomGame, id: SessionId) {
    exists i: nat :: i < |game.originalSeats| && IsPlayerAt(game, id, i)
  }

  predicate IsPlayerAt(game: RoomGame, id: SessionId, i: nat)
    requires i < |game.originalSeats|
  {
    game.originalSeats[i].HumanSeat? && game.originalSeats[i].session == id && i !in game.replacements
  }

  function CachedFor(game: RoomGame, id: SessionId): seq<CachedResult> {
    if id in game.cache then game.cache[id] else []
  }

  predicate HasCommand(entries: seq<CachedResult>, commandId: string) {
    exists k :: 0 <= k < |entries| && entries[k].commandId == commandId
  }

  // A request reaches the engine only from a player, under a command ID that is not retained; a
  // game that is over accepts none, and the AI leaves it alone.
  predicate Fits(game: RoomGame, deed: Deed) {
    if deed.HumanPlays? then
      && IsPlayer(game, deed.player) && !HasCommand(CachedFor(game, deed.player), deed.commandId)
      && (deed.accepted ==> !game.finished)
    else !game.finished
  }

  function AfterDeed(game: RoomGame, deed: Deed): RoomGame {
    match deed
    case HumanPlays(id, commandId, accepted, over) =>
      var version := if accepted then game.stateVersion + 1 else game.stateVersion;
      var longer := CachedFor(game, id) + [CachedResult(commandId, version)];
      game.(stateVersion := version, finished := if accepted then over else game.finished,
            cache := game.cache[id := if |longer| > game.cacheLimit then longer[1..] else longer])
    case AiPlays(over) => game.(stateVersion := game.stateVersion + 1, finished := over)
    case AiFails => game.(failed := true)
  }

  // Recovery: members come back as reconnecting, with what is left of their deadline or a fresh grace.

  function RecoveredDeadline(saved: SavedSession, t: Clock): int {
    if saved.deadline.Some? then saved.deadline.value else t.now + t.restartGrace
  }

  function FindSaved(sessions: seq<SavedSession>, id: SessionId): Option<SavedSession> {
    if sessions == [] then None
    else if sessions[0].session == id then Some(sessions[0])
    else FindSaved(sessions[1..], id)
  }

  function RecoveredSeat(seat: Seat, sessions: seq<SavedSession>, t: Clock): Seat {
    if seat.HumanSeat? && FindSaved(sessions, seat.session).Some?
    then seat.(connection := Reconnecting, deadline := Some(RecoveredDeadline(FindSaved(sessions, seat.session).value, t)))
    else seat
  }

  function RecoveredSeats(seats: seq<Seat>, sessions: seq<SavedSession>, t: Clock): seq<Seat> {
    seq(|seats|, i requires 0 <= i < |seats| => RecoveredSeat(seats[i], sessions, t))
  }

  function RecoveredSessions(s: Service, record: Record, t: Clock): map<SessionId, Stored> {
    s.sessions + map id | id in (set k | 0 <= k < |record.sessions| :: record.sessions[k].session) && FindSaved(record.sessions, id).Some? ::
      var saved := FindSaved(record.sessions, id).value;
      Stored(record.roomCode, saved.seat, saved.tokenDigest, Some(RecoveredDeadline(saved, t)))
  }

  // An expired lobby or an abandoned game is removed instead of recovered.
  predicate Lapsed(record: Record, t: Clock) {
    || (record.game.None? && record.idleDeadline <= t.now)
    || (record.abandonedDeadline.Some? && record.abandonedDeadline.value <= t.now)
  }

  function RecoverRoom(s: Service, record: Record, t: Clock): RoomOutcome {
    if Lapsed(record, t) then RoomOutcome(s, None, None)
    else
      var room := Room(record.revision, record.host, RecoveredSeats(record.seats, record.sessions, t), record.idleDeadline,
                       record.abandonedDeadline, record.game);
      Save(s, record.roomCode, SyncedIfPlaying(room), RecoveredSessions(s, record, t), t)
  }

  // Runs.

  datatype Step =
    | CreateStep(code: RoomCode, id: SessionId, digest: string, name: string, valid: bool)
    | JoinStep(code: RoomCode, id: SessionId, digest: string, name: string, valid: bool)
    | ResumeStep(code: RoomCode, id: SessionId, seat: nat, digest: string)
    | DisconnectStep(id: SessionId)
    | ReadyStep(id: SessionId, revision: nat, ready: bool)
    | AiSeatStep(id: SessionId, revision: nat, seat: nat, wanted: Option<ProfileId>)
    | LeaveStep(id: SessionId)
    | SnapshotStep(id: SessionId)
    | StartStep(id: SessionId, revision: nat, gameId: string, cacheLimit: nat)
    | ReplaceStep(id: SessionId, gameId: string, revision: nat, seat: nat, profile: ProfileId)
    | CloseStep(id: SessionId, gameId: string, revision: nat)
    | ExpireStep(id: SessionId)
    | IdleStep(code: RoomCode)
    | AbandonStep(code: RoomCode)
    | PlayStep(code: RoomCode, deed: Deed)
    | AnnounceStep(code: RoomCode)
    | RecoverStep(record: Record)

  // Identifiers are fresh: no seat anywhere has ever held them.
  ghost predicate FreshSession(s: Service, id: SessionId) {
    id !in s.sessions && forall code :: code in s.rooms ==> !HoldsSession(s.rooms[code].seats, id)
  }

  ghost predicate Possible(s: Service, step: Step) {
    match step
    case CreateStep(code, id, _, _, _) => code !in s.rooms && FreshSession(s, id)
    case JoinStep(_, id, _, _, _) => FreshSession(s, id)
    case PlayStep(code, deed) => code in s.rooms && s.rooms[code].game.Some? && Fits(s.rooms[code].game.value, deed)
    case RecoverStep(record) =>
      && AggregateValid(record) && record.roomCode !in s.rooms
      && forall i :: 0 <= i < |record.seats| && record.seats[i].HumanSeat? ==> FreshSession(s, record.seats[i].session)
    case _ => true
  }

  ghost function Take(s: Service, step: Step, t: Clock): RoomOutcome
    requires Possible(s, step)
  {
    match step
    case CreateStep(code, id, digest, name, valid) => Create(s, code, id, digest, name, valid, t)
    case JoinStep(code, id, digest, name, valid) => Join(s, code, id, digest, name, valid, t)
    case ResumeStep(code, id, seat, digest) => Resume(s, code, id, seat, digest, t)
    case DisconnectStep(id) => MarkDisconnected(s, id, t)
    case ReadyStep(id, revision, ready) => SetReady(s, id, revision, ready, t)
    case AiSeatStep(id, revision, seat, profile) => SetAiSeat(s, id, revision, seat, profile, t)
    case LeaveStep(id) => Leave(s, id, t)
    case SnapshotStep(id) => RequestSnapshot(s, id, t)
    case StartStep(id, revision, gameId, cacheLimit) => Start(s, id, revision, gameId, cacheLimit, t)
    case ReplaceStep(id, gameId, revision, seat, profile) => ReplaceExpired(s, id, gameId, revision, seat, profile, t)
    case CloseStep(id, gameId, revision) => CloseGame(s, id, gameId, revision)
    // A timer whose deadline has passed expires the session; an early one is rescheduled.
    case ExpireStep(id) =>
      if IsMember(s, id) && s.sessions[id].deadline.Some? && s.sessions[id].deadline.value <= t.now then Expire(s, id, t)
      else RoomOutcome(s, None, None)
    case IdleStep(code) =>
      if code in s.rooms && s.rooms[code].game.None? && s.rooms[code].idleDeadline <= t.now
      then RoomOutcome(WithoutRoom(s, code), None, None) else RoomOutcome(s, None, None)
    case AbandonStep(code) =>
      if code in s.rooms && s.rooms[code].game.Some? && s.rooms[code].abandonedDeadline.Some?
         && s.rooms[code].abandonedDeadline.value <= t.now
      then RoomOutcome(WithoutRoom(s, code), None, None) else RoomOutcome(s, None, None)
    case PlayStep(code, deed) =>
      Save(s, code, s.rooms[code].(game := Some(AfterDeed(s.rooms[code].game.value, deed))), s.sessions, t)
    // A game that ends gives its Room a new revision.
    case AnnounceStep(code) =>
      if code in s.rooms && s.rooms[code].game.Some? && s.rooms[code].game.value.finished
      then Save(s, code, s.rooms[code].(revision := s.rooms[code].revision + 1), s.sessions, t)
      else RoomOutcome(s, None, None)
    case RecoverStep(record) => RecoverRoom(s, record, t)
  }
}
