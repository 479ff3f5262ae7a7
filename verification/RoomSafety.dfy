// Every room operation keeps the invariant, and every record handed to the repository is valid.

module RoomSafety {
  import opened Board
  import opened Sessions
  import opened Rooms
  import opened RoomSteps

  // The two session stores agree on everybody seated outside one Room.
  ghost predicate Isolated(s: Service, code: RoomCode, sessions: map<SessionId, Stored>) {
    forall c, id :: c in s.rooms && c != code && HoldsSession(s.rooms[c].seats, id) ==> SameEntry(s.sessions, sessions, id)
  }

  predicate SameEntry(sessions: map<SessionId, Stored>, sessions': map<SessionId, Stored>, id: SessionId) {
    (id in sessions <==> id in sessions') && (id in sessions ==> sessions'[id] == sessions[id])
  }

  // Stored sessions of the Room sit where they say; all others are untouched.
  ghost predicate Placed(s: Service, code: RoomCode, room: Room, sessions: map<SessionId, Stored>) {
    forall id :: id in sessions ==>
      if sessions[id].roomCode == code
      then sessions[id].seat < |room.seats| && room.seats[sessions[id].seat].HumanSeat? && room.seats[sessions[id].seat].session == id
      else id in s.sessions && sessions[id] == s.sessions[id]
  }

  ghost predicate Inv(s: Service) {
    ServiceInv(s.rooms, s.sessions)
  }

  lemma SeatsFrame(code: RoomCode, room: Room, sessions: map<SessionId, Stored>, sessions': map<SessionId, Stored>)
    requires SeatsInv(code, room, sessions)
    requires forall id :: HoldsSession(room.seats, id) ==> SameEntry(sessions, sessions', id)
    ensures SeatsInv(code, room, sessions')
  {
    hide OriginalsValid, CachesValid;
    forall i: nat | i < SEATS && room.seats[i].HumanSeat? ensures SeatMatches(code, i, room.seats[i], sessions') {
      assert SeatMatches(code, i, room.seats[i], sessions);
      assert HoldsSession(room.seats, room.seats[i].session);
    }
    var n :| 0 <= n < SEATS && room.seats[n].HumanSeat? && room.seats[n].session in sessions;
    assert HoldsSession(room.seats, room.seats[n].session);
    assert room.seats[n].session in sessions';
  }

  lemma OriginalsIgnorePresence(seats: seq<Seat>, game: RoomGame, game': RoomGame)
    requires |seats| == SEATS && OriginalsValid(seats, game)
    requires game'.originalSeats == game.originalSeats && game'.replacements == game.replacements
    ensures OriginalsValid(seats, game')
  {
  }

  lemma CachesIgnorePresence(seats: seq<Seat>, game: RoomGame, game': RoomGame)
    requires CachesValid(seats, game)
    requires game'.cache == game.cache && game'.cacheLimit == game.cacheLimit && game'.stateVersion == game.stateVersion
    ensures CachesValid(seats, game')
  {
    hide HoldsSession, CacheValid;
  }

  lemma SyncKeeps(code: RoomCode, room: Room, sessions: map<SessionId, Stored>)
    requires SeatsInv(code, room, sessions) && room.game.Some?
    ensures SeatsInv(code, Synchronized(room), sessions) && PresenceInv(Synchronized(room))
  {
    hide OriginalsValid, CachesValid, SeatMatches;
    OriginalsIgnorePresence(room.seats, room.game.value, Synchronized(room).game.value);
    CachesIgnorePresence(room.seats, room.game.value, Synchronized(room).game.value);
  }

  lemma DeadlineKeeps(code: RoomCode, room: Room, sessions: map<SessionId, Stored>, deadline: Option<int>)
    requires SeatsInv(code, room, sessions) && room.game.Some?
    ensures SeatsInv(code, room.(abandonedDeadline := deadline), sessions)
  {
    hide OriginalsValid, CachesValid, SeatMatches;
  }

  lemma BeforeSaveKeeps(code: RoomCode, room: Room, sessions: map<SessionId, Stored>, t: Clock)
    requires SeatsInv(code, room, sessions) && PresenceInv(room)
    ensures SeatsInv(code, BeforeSave(room, t), sessions) && PresenceInv(BeforeSave(room, t))
    ensures BeforeSave(room, t).seats == room.seats
  {
    hide SeatsInv, Synchronized;
    if room.game.Some? && room.game.value.finished && room.abandonedDeadline.None? {
      var dated := room.(abandonedDeadline := Some(t.now + t.abandonedTtl));
      DeadlineKeeps(code, room, sessions, dated.abandonedDeadline);
      SyncKeeps(code, dated, sessions);
      SyncSeats(dated);
    }
  }

  lemma SyncSeats(room: Room)
    requires room.game.Some?
    ensures Synchronized(room).seats == room.seats && Synchronized(room).host == room.host
  {
  }

  // What an outcome must satisfy.
  ghost predicate Good(o: RoomOutcome) {
    && Inv(o.service)
    && (o.saved.Some? ==>
          && o.saved.value in o.service.rooms
          && AggregateValid(RecordOf(o.saved.value, o.service.rooms[o.saved.value], o.service.sessions)))
  }

  // The general save: a Room that satisfies the invariant on its own, with the other Rooms' sessions left alone.
  lemma SaveIsGood(s: Service, code: RoomCode, room: Room, sessions: map<SessionId, Stored>, t: Clock)
    requires Inv(s) && SeatsInv(code, room, sessions) && PresenceInv(room)
    requires Isolated(s, code, sessions) && Placed(s, code, room, sessions)
    ensures Good(Save(s, code, room, sessions, t))
  {
    hide SeatsInv, PresenceInv, BeforeSave, AggregateValid, RecordOf, HoldsSession;
    BeforeSaveKeeps(code, room, sessions, t);
    var saved := BeforeSave(room, t);
    RecordIsValid(code, saved, sessions);
    var rooms := s.rooms[code := saved];
    forall c | c in rooms ensures RoomInv(c, rooms[c], sessions) {
      if c != code {
        assert RoomInv(c, s.rooms[c], s.sessions);
        forall id | HoldsSession(rooms[c].seats, id) ensures SameEntry(s.sessions, sessions, id) {
        }
        SeatsFrame(c, rooms[c], s.sessions, sessions);
      }
    }
    SaveSessions(s, code, room, sessions, saved);
  }

  lemma SaveSessions(s: Service, code: RoomCode, room: Room, sessions: map<SessionId, Stored>, saved: Room)
    requires Inv(s) && Placed(s, code, room, sessions) && saved.seats == room.seats
    ensures SessionsInv(s.rooms[code := saved], sessions)
  {
    hide RoomInv;
    forall id | id in sessions ensures StoredRight(s.rooms[code := saved], sessions[id], id) {
      if sessions[id].roomCode != code {
        assert StoredRight(s.rooms, s.sessions[id], id);
      }
    }
  }

  // Whose sessions are whose.

  lemma OwnSession(s: Service, id: SessionId, c: RoomCode)
    requires Inv(s) && id in s.sessions && c in s.rooms && HoldsSession(s.rooms[c].seats, id)
    ensures s.sessions[id].roomCode == c
  {
    hide OriginalsValid, CachesValid, PresenceInv;
    var room := s.rooms[c];
    assert RoomInv(c, room, s.sessions);
    var i :| 0 <= i < |room.seats| && room.seats[i].HumanSeat? && room.seats[i].session == id;
    assert SeatMatches(c, i, room.seats[i], s.sessions);
  }

  // Changing a member's own entry, or adding a fresh one, leaves the other Rooms alone.
  lemma OwnChangeIsIsolated(s: Service, code: RoomCode, id: SessionId, sessions: map<SessionId, Stored>)
    requires Inv(s)
    requires (id in s.sessions && s.sessions[id].roomCode == code) || FreshSession(s, id)
    requires forall other :: other != id ==> SameEntry(s.sessions, sessions, other)
    ensures Isolated(s, code, sessions)
  {
    hide Inv, HoldsSession;
    forall c, other | c in s.rooms && c != code && HoldsSession(s.rooms[c].seats, other) ensures SameEntry(s.sessions, sessions, other) {
      if other == id && id in s.sessions {
        OwnSession(s, id, c);
      }
    }
  }

  lemma OwnChangeIsPlaced(s: Service, code: RoomCode, room: Room, id: SessionId, sessions: map<SessionId, Stored>)
    requires Inv(s)
    requires forall other :: other != id ==> SameEntry(s.sessions, sessions, other)
    requires id in sessions ==> sessions[id].roomCode == code
    requires Seated(room, code, sessions)
    ensures Placed(s, code, room, sessions)
  {
    hide Inv;
    forall other | other in sessions && sessions[other].roomCode != code
      ensures other in s.sessions && sessions[other] == s.sessions[other]
    {
      assert SameEntry(s.sessions, sessions, other);
    }
  }

  // The facts about a member that every operation starts from.
  lemma MemberFacts(s: Service, id: SessionId)
    requires Inv(s) && IsMember(s, id)
    ensures var code, i := s.sessions[id].roomCode, s.sessions[id].seat;
            var room := s.rooms[code];
            && SeatsInv(code, room, s.sessions) && PresenceInv(room) && |room.seats| == SEATS && i < SEATS
            && room.seats[i].HumanSeat? && room.seats[i].session == id && SeatMatches(code, i, room.seats[i], s.sessions)
            && (room.seats[i].connection != Disconnected)
  {
    hide OriginalsValid, CachesValid, PresenceInv;
    var stored := s.sessions[id];
    assert RoomInv(stored.roomCode, s.rooms[stored.roomCode], s.sessions);
    assert SeatMatches(stored.roomCode, stored.seat, s.rooms[stored.roomCode].seats[stored.seat], s.sessions);
  }

  lemma RoomFacts(s: Service, code: RoomCode)
    requires Inv(s) && code in s.rooms
    ensures SeatsInv(code, s.rooms[code], s.sessions) && PresenceInv(s.rooms[code]) && |s.rooms[code].seats| == SEATS
    ensures Isolated(s, code, s.sessions)
    ensures Seated(s.rooms[code], code, s.sessions)
    ensures Placed(s, code, s.rooms[code], s.sessions)
  {
    hide Inv, SeatsInv, PresenceInv, HoldsSession, Seated, Placed, Isolated;
    RoomIs(s, code);
    SessionsSeated(s, code);
    SelfIsolated(s, code);
  }

  lemma SelfIsolated(s: Service, code: RoomCode)
    ensures Isolated(s, code, s.sessions)
  {
    hide HoldsSession;
  }

  lemma SessionsSeated(s: Service, code: RoomCode)
    requires Inv(s) && code in s.rooms
    ensures Seated(s.rooms[code], code, s.sessions) && Placed(s, code, s.rooms[code], s.sessions)
  {
    hide RoomInv;
    forall id | id in s.sessions ensures StoredRight(s.rooms, s.sessions[id], id) {
    }
  }

  lemma RoomIs(s: Service, code: RoomCode)
    requires Inv(s) && code in s.rooms
    ensures SeatsInv(code, s.rooms[code], s.sessions) && PresenceInv(s.rooms[code]) && |s.rooms[code].seats| == SEATS
  {
    hide OriginalsValid, CachesValid, PresenceInv, SeatMatches, HoldsSession;
    assert RoomInv(code, s.rooms[code], s.sessions);
  }

  // Every session stored for the Room sits on its seat.
  ghost predicate Seated(room: Room, code: RoomCode, sessions: map<SessionId, Stored>) {
    forall id :: id in sessions && sessions[id].roomCode == code ==>
      sessions[id].seat < |room.seats| && room.seats[sessions[id].seat].HumanSeat?
      && room.seats[sessions[id].seat].session == id
  }

  // Changes to one seat.

  lemma DistinctHumans(code: RoomCode, room: Room, sessions: map<SessionId, Stored>, i: nat, j: nat)
    requires SeatsInv(code, room, sessions) && i < SEATS && j < SEATS && i != j
    requires room.seats[i].HumanSeat? && room.seats[j].HumanSeat?
    ensures room.seats[i].session != room.seats[j].session
  {
    hide OriginalsValid, CachesValid, SeatMatches, HoldsSession;
    if j < i {
      assert room.seats[j].session != room.seats[i].session;
    }
  }

  predicate SameOccupant(seat: Seat, seat': Seat) {
    && seat.HumanSeat? && seat'.HumanSeat? && seat'.session == seat.session && seat'.displayName == seat.displayName
  }

  lemma HeldStays(seats: seq<Seat>, seats': seq<Seat>, i: nat, id: SessionId)
    requires i < |seats| == |seats'| && SameOccupant(seats[i], seats'[i]) && seats' == seats[i := seats'[i]]
    ensures HoldsSession(seats, id) <==> HoldsSession(seats', id)
  {
    if HoldsSession(seats, id) {
      var n :| 0 <= n < |seats| && seats[n].HumanSeat? && seats[n].session == id;
      assert seats'[n].session == id;
    }
    if HoldsSession(seats', id) {
      var n :| 0 <= n < |seats'| && seats'[n].HumanSeat? && seats'[n].session == id;
      assert seats[n].session == id;
    }
  }

  // A seat's connection changes together with its session's entry.
  lemma Reseated(code: RoomCode, room: Room, room': Room, sessions: map<SessionId, Stored>, sessions': map<SessionId, Stored>, i: nat)
    requires SeatsInv(code, room, sessions) && i < SEATS && |room'.seats| == SEATS
    requires SameOccupant(room.seats[i], room'.seats[i]) && room'.seats == room.seats[i := room'.seats[i]]
    requires forall id :: id != room.seats[i].session ==> SameEntry(sessions, sessions', id)
    requires SeatMatches(code, i, room'.seats[i], sessions')
    requires HoldsSession(room'.seats, room'.host) && AnySession(room'.seats, sessions')
    requires room'.game == room.game
    requires room.game.None? ==> room'.abandonedDeadline.None? && room'.seats[i].connection != Disconnected
    ensures SeatsInv(code, room', sessions')
  {
    hide OriginalsValid, CachesValid, SeatMatches, HoldsSession;
    forall j, k | 0 <= j < k < SEATS && room'.seats[j].HumanSeat? && room'.seats[k].HumanSeat?
      ensures room'.seats[j].session != room'.seats[k].session
    {
      assert room.seats[j].session != room.seats[k].session;
    }
    forall j: nat | j < SEATS && room'.seats[j].HumanSeat? ensures SeatMatches(code, j, room'.seats[j], sessions') {
      if j != i {
        DistinctHumans(code, room, sessions, i, j);
        assert SeatMatches(code, j, room.seats[j], sessions);
        EntryKeepsMatch(code, j, room.seats[j], sessions, sessions');
      }
    }
    if room.game.Some? {
      ReseatedOriginals(room.seats, room'.seats, i, room.game.value);
      ReseatedCaches(room.seats, room'.seats, i, room.game.value);
    }
  }

  lemma EntryKeepsMatch(code: RoomCode, i: nat, seat: Seat, sessions: map<SessionId, Stored>, sessions': map<SessionId, Stored>)
    requires seat.HumanSeat? && SeatMatches(code, i, seat, sessions) && SameEntry(sessions, sessions', seat.session)
    ensures SeatMatches(code, i, seat, sessions')
  {
  }

  lemma ReseatedOriginals(seats: seq<Seat>, seats': seq<Seat>, i: nat, game: RoomGame)
    requires |seats| == |seats'| == SEATS && i < SEATS && SameOccupant(seats[i], seats'[i]) && seats' == seats[i := seats'[i]]
    requires OriginalsValid(seats, game)
    ensures OriginalsValid(seats', game)
  {
    forall j: nat | j < SEATS ensures SeatFollows(game.originalSeats[j], seats'[j], j, game.replacements) {
      assert SeatFollows(game.originalSeats[j], seats[j], j, game.replacements);
    }
  }

  lemma ReseatedCaches(seats: seq<Seat>, seats': seq<Seat>, i: nat, game: RoomGame)
    requires i < |seats| == |seats'| && SameOccupant(seats[i], seats'[i]) && seats' == seats[i := seats'[i]]
    requires CachesValid(seats, game)
    ensures CachesValid(seats', game)
  {
    hide CacheValid, HoldsSession;
    forall id | id in game.cache ensures HoldsSession(seats', id) {
      HeldStays(seats, seats', i, id);
    }
  }

  lemma {:induction false} ConnectedIsHeld(seats: seq<Seat>, i: nat)
    requires i <= |seats|
    ensures FirstConnected(seats, i).Some? ==>
              HoldsSession(seats, FirstConnected(seats, i).value)
              && exists n :: i <= n < |seats| && seats[n].HumanSeat? && seats[n].session == FirstConnected(seats, i).value
                             && seats[n].connection == Connected
    decreases |seats| - i
  {
    if i < |seats| {
      ConnectedIsHeld(seats, i + 1);
    }
  }

  lemma HostHeld(room: Room, sessions: map<SessionId, Stored>)
    requires HoldsSession(room.seats, room.host)
    ensures HoldsSession(TransferredHost(room, sessions).seats, TransferredHost(room, sessions).host)
    ensures TransferredHost(room, sessions) == room.(host := TransferredHost(room, sessions).host)
  {
    hide HoldsSession;
    ConnectedIsHeld(room.seats, 0);
  }

  // Saving after synchronizing presence and touching the idle timer.

  lemma SyncedKeeps(code: RoomCode, room: Room, sessions: map<SessionId, Stored>)
    requires SeatsInv(code, room, sessions)
    ensures SeatsInv(code, SyncedIfPlaying(room), sessions) && PresenceInv(SyncedIfPlaying(room))
    ensures SyncedIfPlaying(room).seats == room.seats
  {
    hide SeatsInv, Synchronized;
    if room.game.Some? {
      SyncKeeps(code, room, sessions);
      SyncSeats(room);
    }
  }

  lemma TouchKeeps(code: RoomCode, room: Room, sessions: map<SessionId, Stored>, t: Clock)
    requires SeatsInv(code, room, sessions)
    ensures SeatsInv(code, Touched(room, t), sessions) && Touched(room, t).seats == room.seats
    ensures PresenceInv(room) ==> PresenceInv(Touched(room, t))
  {
    hide OriginalsValid, CachesValid, SeatMatches, HoldsSession, GoneSeats;
  }

  lemma SeatedFrame(room: Room, room': Room, code: RoomCode, sessions: map<SessionId, Stored>)
    requires Seated(room, code, sessions) && room'.seats == room.seats
    ensures Seated(room', code, sessions)
  {
  }

  // The save of a Room that satisfies the invariant, once synchronized, touched or neither.
  lemma FinishedSave(s: Service, code: RoomCode, room: Room, sessions: map<SessionId, Stored>, id: SessionId, t: Clock)
    requires Inv(s) && SeatsInv(code, room, sessions) && Seated(room, code, sessions)
    requires (id in s.sessions && s.sessions[id].roomCode == code) || FreshSession(s, id)
    requires forall other :: other != id ==> SameEntry(s.sessions, sessions, other)
    requires id in sessions ==> sessions[id].roomCode == code
    ensures Good(Save(s, code, SyncedIfPlaying(room), sessions, t))
    ensures Good(Save(s, code, Touched(SyncedIfPlaying(room), t), sessions, t))
    ensures PresenceInv(room) ==> Good(Save(s, code, room, sessions, t)) && Good(Save(s, code, Touched(room, t), sessions, t))
  {
    hide Inv, SeatsInv, PresenceInv, HoldsSession, Seated, Placed, Isolated, Save, Good, SyncedIfPlaying, Touched, FreshSession;
    var synced := SyncedIfPlaying(room);
    SyncedKeeps(code, room, sessions);
    TouchKeeps(code, synced, sessions, t);
    TouchKeeps(code, room, sessions, t);
    OwnChangeIsIsolated(s, code, id, sessions);
    EachIsPlaced(s, code, room, synced, sessions, id);
    EachIsPlaced(s, code, room, Touched(synced, t), sessions, id);
    EachIsPlaced(s, code, room, Touched(room, t), sessions, id);
    EachIsPlaced(s, code, room, room, sessions, id);
    SaveIsGood(s, code, synced, sessions, t);
    SaveIsGood(s, code, Touched(synced, t), sessions, t);
    if PresenceInv(room) {
      SaveIsGood(s, code, room, sessions, t);
      SaveIsGood(s, code, Touched(room, t), sessions, t);
    }
  }

  lemma EachIsPlaced(s: Service, code: RoomCode, room: Room, room': Room, sessions: map<SessionId, Stored>, id: SessionId)
    requires Inv(s) && Seated(room, code, sessions) && room'.seats == room.seats
    requires forall other :: other != id ==> SameEntry(s.sessions, sessions, other)
    requires id in sessions ==> sessions[id].roomCode == code
    ensures Placed(s, code, room', sessions)
  {
    hide Inv, Placed;
    SeatedFrame(room, room', code, sessions);
    OwnChangeIsPlaced(s, code, room', id, sessions);
  }

  // A member's connection changes.
  lemma ReseatIsGood(s: Service, id: SessionId, room': Room, sessions': map<SessionId, Stored>, t: Clock)
    requires Inv(s) && IsMember(s, id)
    requires var code, i := s.sessions[id].roomCode, s.sessions[id].seat;
             var room := s.rooms[code];
             && |room'.seats| == SEATS && |room.seats| == SEATS && i < SEATS
             && SameOccupant(room.seats[i], room'.seats[i]) && room'.seats == room.seats[i := room'.seats[i]]
             && SeatMatches(code, i, room'.seats[i], sessions')
             && HoldsSession(room'.seats, room'.host) && AnySession(room'.seats, sessions')
             && room'.game == room.game
             && (room.game.None? ==> room'.abandonedDeadline.None? && room'.seats[i].connection != Disconnected)
    requires forall other :: other != id ==> SameEntry(s.sessions, sessions', other)
    ensures var code := s.sessions[id].roomCode;
            && Good(Save(s, code, SyncedIfPlaying(room'), sessions', t))
            && Good(Save(s, code, Touched(SyncedIfPlaying(room'), t), sessions', t))
            && (PresenceInv(room') ==> Good(Save(s, code, room', sessions', t)) && Good(Save(s, code, Touched(room', t), sessions', t)))
  {
    hide Inv, SeatsInv, PresenceInv, HoldsSession, AnySession, Save, Good, SyncedIfPlaying, Touched;
    var code, i := s.sessions[id].roomCode, s.sessions[id].seat;
    var room := s.rooms[code];
    MemberFacts(s, id);
    RoomFacts(s, code);
    Reseated(code, room, room', s.sessions, sessions', i);
    forall other | other in sessions' && sessions'[other].roomCode == code
      ensures sessions'[other].seat < |room'.seats| && room'.seats[sessions'[other].seat].HumanSeat?
              && room'.seats[sessions'[other].seat].session == other
    {
      if other != id {
        assert SameEntry(s.sessions, sessions', other);
      }
    }
    FinishedSave(s, code, room', sessions', id, t);
  }

  lemma MemberHeld(s: Service, id: SessionId)
    requires Inv(s) && IsMember(s, id)
    ensures var code := s.sessions[id].roomCode;
            && HoldsSession(s.rooms[code].seats, s.rooms[code].host) && HoldsSession(s.rooms[code].seats, id)
            && AnySession(s.rooms[code].seats, s.sessions)
            && (s.rooms[code].game.None? ==> s.rooms[code].abandonedDeadline.None?)
  {
    hide OriginalsValid, CachesValid, SeatMatches, PresenceInv;
    MemberFacts(s, id);
  }

  lemma SetReadyIsGood(s: Service, id: SessionId, revision: nat, ready: bool, t: Clock)
    requires Inv(s)
    ensures Good(SetReady(s, id, revision, ready, t))
  {
    hide Inv, SeatsInv, HoldsSession, AnySession, Save, AggregateValid, RecordOf;
    if IsMember(s, id) {
      var code, i := s.sessions[id].roomCode, s.sessions[id].seat;
      var room := s.rooms[code];
      MemberFacts(s, id);
      MemberHeld(s, id);
      ReseatIsGood(s, id, room, s.sessions, t);
      var room' := room.(seats := room.seats[i := room.seats[i].(ready := ready)], revision := room.revision + 1);
      HeldStays(room.seats, room'.seats, i, room.host);
      SomeoneSeated(room'.seats, i, s.sessions);
      ReseatIsGood(s, id, room', s.sessions, t);
    }
  }

  lemma SomeoneSeated(seats: seq<Seat>, i: nat, sessions: map<SessionId, Stored>)
    requires i < |seats| && seats[i].HumanSeat? && seats[i].session in sessions
    ensures AnySession(seats, sessions)
  {
  }

  lemma SnapshotIsGood(s: Service, id: SessionId, t: Clock)
    requires Inv(s)
    ensures Good(RequestSnapshot(s, id, t))
  {
    hide Inv, SeatsInv, HoldsSession, AnySession, Save, AggregateValid, RecordOf;
    if IsMember(s, id) {
      MemberFacts(s, id);
      MemberHeld(s, id);
      ReseatIsGood(s, id, s.rooms[s.sessions[id].roomCode], s.sessions, t);
    }
  }

  lemma DisconnectIsGood(s: Service, id: SessionId, t: Clock)
    requires Inv(s)
    ensures Good(MarkDisconnected(s, id, t))
  {
    hide Inv, SeatsInv, HoldsSession, AnySession, Save, AggregateValid, RecordOf, SyncedIfPlaying;
    if IsMember(s, id) {
      var code, i := s.sessions[id].roomCode, s.sessions[id].seat;
      var room := s.rooms[code];
      MemberFacts(s, id);
      MemberHeld(s, id);
      ReseatIsGood(s, id, room, s.sessions, t);
      var deadline := Some(t.now + t.reconnectGrace);
      var room' := room.(seats := room.seats[i := room.seats[i].(connection := Reconnecting, deadline := deadline)],
                         revision := room.revision + 1);
      var sessions' := s.sessions[id := s.sessions[id].(deadline := deadline)];
      HeldStays(room.seats, room'.seats, i, room.host);
      SomeoneSeated(room'.seats, i, sessions');
      ReseatIsGood(s, id, room', sessions', t);
    }
  }

  lemma ReconnectIsGood(s: Service, id: SessionId, t: Clock)
    requires Inv(s) && IsMember(s, id)
    ensures var code, seat := s.sessions[id].roomCode, s.sessions[id].seat;
            var room, held := s.rooms[code], s.rooms[code].seats[seat];
            var sessions := s.sessions[id := s.sessions[id].(deadline := None)];
            var back := if held.connection == Connected then room
                        else room.(seats := room.seats[seat := held.(connection := Connected, deadline := None)], revision := room.revision + 1);
            Good(Save(s, code, Touched(SyncedIfPlaying(TransferredHost(back, sessions)), t), sessions, t))
  {
    hide Inv, SeatsInv, PresenceInv, HoldsSession, AnySession, Save, AggregateValid, RecordOf, SyncedIfPlaying, TransferredHost, Touched, Good;
    var code, i := s.sessions[id].roomCode, s.sessions[id].seat;
    var room := s.rooms[code];
    MemberFacts(s, id);
    MemberHeld(s, id);
    var sessions := s.sessions[id := s.sessions[id].(deadline := None)];
    var back := if room.seats[i].connection == Connected then room
                else room.(seats := room.seats[i := room.seats[i].(connection := Connected, deadline := None)], revision := room.revision + 1);
    assert room.seats == room.seats[i := room.seats[i]];
    HeldStays(room.seats, back.seats, i, room.host);
    SomeoneSeated(back.seats, i, sessions);
    HostHeld(back, sessions);
    ReseatIsGood(s, id, TransferredHost(back, sessions), sessions, t);
  }

  // Closing.

  lemma ClosedIsGood(s: Service, code: RoomCode)
    requires Inv(s) && code in s.rooms
    ensures Inv(WithoutRoom(s, code))
  {
    hide SeatsInv, PresenceInv, HoldsSession;
    var s' := WithoutRoom(s, code);
    forall c | c in s'.rooms ensures RoomInv(c, s'.rooms[c], s'.sessions) {
      assert RoomInv(c, s.rooms[c], s.sessions);
      forall id | HoldsSession(s'.rooms[c].seats, id) ensures SameEntry(s.sessions, s'.sessions, id) {
        if id in s.sessions && HoldsSession(s.rooms[code].seats, id) {
          OwnSession(s, id, c);
          OwnSession(s, id, code);
        }
      }
      SeatsFrame(c, s'.rooms[c], s.sessions, s'.sessions);
    }
    ClosedSessions(s, code);
  }

  lemma ClosedSessions(s: Service, code: RoomCode)
    requires Inv(s) && code in s.rooms
    ensures SessionsInv(WithoutRoom(s, code).rooms, WithoutRoom(s, code).sessions)
  {
    hide RoomInv;
    var s' := WithoutRoom(s, code);
    forall id | id in s'.sessions ensures StoredRight(s'.rooms, s'.sessions[id], id) {
      StoredIsHeld(s, id);
    }
  }

  lemma StoredIsHeld(s: Service, id: SessionId)
    requires SessionsInv(s.rooms, s.sessions) && id in s.sessions
    ensures s.sessions[id].roomCode in s.rooms && HoldsSession(s.rooms[s.sessions[id].roomCode].seats, id)
    ensures IsMember(s, id)
  {
    assert StoredRight(s.rooms, s.sessions[id], id);
  }

  lemma ClosingIsGood(s: Service, code: RoomCode, error: Option<RoomError>)
    requires Inv(s) && code in s.rooms
    ensures Good(RoomOutcome(WithoutRoom(s, code), None, error))
  {
    hide Inv, WithoutRoom;
    ClosedIsGood(s, code);
  }

  // Expiry.

  lemma ExpireInGameIsGood(s: Service, id: SessionId, t: Clock)
    requires Inv(s) && IsMember(s, id) && s.rooms[s.sessions[id].roomCode].game.Some? && s.sessions[id].deadline.Some?
    ensures Good(Expire(s, id, t))
  {
    hide Inv, SeatsInv, PresenceInv, HoldsSession, AnySession, Save, AggregateValid, RecordOf, SyncedIfPlaying, TransferredHost, WithoutRoom, Good;
    var code, i := s.sessions[id].roomCode, s.sessions[id].seat;
    var room, sessions := s.rooms[code], s.sessions - {id};
    MemberFacts(s, id);
    MemberHeld(s, id);
    var gone := room.(seats := room.seats[i := room.seats[i].(connection := Disconnected)], revision := room.revision + 1);
    if !AnySession(gone.seats, sessions) {
      ClosingIsGood(s, code, None);
    } else {
      HeldStays(room.seats, gone.seats, i, room.host);
      HostHeld(gone, sessions);
      var hosted := TransferredHost(gone, sessions);
      var scheduled := if hosted.abandonedDeadline.Some? then hosted
                       else hosted.(abandonedDeadline := Some(t.now + t.abandonedTtl));
      ReseatIsGood(s, id, scheduled, sessions, t);
    }
  }

  // Lobby seats.

  lemma {:induction false} FirstEmptyIs(seats: seq<Seat>, i: nat)
    requires i <= |seats|
    ensures FirstEmpty(seats, i).Some? ==> FirstEmpty(seats, i).value < |seats| && seats[FirstEmpty(seats, i).value].EmptySeat?
    decreases |seats| - i
  {
    if i < |seats| {
      FirstEmptyIs(seats, i + 1);
    }
  }

  // One lobby seat changes hands.
  lemma LobbySeat(code: RoomCode, room: Room, room': Room, sessions: map<SessionId, Stored>, sessions': map<SessionId, Stored>,
                  i: nat, id: SessionId)
    requires SeatsInv(code, room, sessions) && i < SEATS && room.game.None? && room'.game.None? && room'.abandonedDeadline.None?
    requires |room'.seats| == SEATS && room'.seats == room.seats[i := room'.seats[i]]
    requires forall other :: other != id ==> SameEntry(sessions, sessions', other)
    requires forall j: nat :: j < SEATS && j != i && room.seats[j].HumanSeat? ==> room.seats[j].session != id
    requires room'.seats[i].HumanSeat? ==>
               room'.seats[i].session == id && SeatMatches(code, i, room'.seats[i], sessions') && room'.seats[i].connection != Disconnected
    requires HoldsSession(room'.seats, room'.host) && AnySession(room'.seats, sessions')
    ensures SeatsInv(code, room', sessions')
  {
    hide SeatMatches, HoldsSession;
    forall j, k | 0 <= j < k < SEATS && room'.seats[j].HumanSeat? && room'.seats[k].HumanSeat?
      ensures room'.seats[j].session != room'.seats[k].session
    {
      if j != i && k != i {
        assert room.seats[j].session != room.seats[k].session;
      }
    }
    forall j: nat | j < SEATS && room'.seats[j].HumanSeat? ensures SeatMatches(code, j, room'.seats[j], sessions') {
      if j != i {
        assert SeatMatches(code, j, room.seats[j], sessions);
        EntryKeepsMatch(code, j, room.seats[j], sessions, sessions');
      }
    }
  }

  lemma JoinIsGood(s: Service, code: RoomCode, id: SessionId, digest: string, name: string, valid: bool, t: Clock)
    requires Inv(s) && FreshSession(s, id)
    ensures Good(Join(s, code, id, digest, name, valid, t))
  {
    hide Inv, SeatsInv, PresenceInv, HoldsSession, AnySession, Save, AggregateValid, RecordOf, FirstEmpty, Touched, NameTaken, FreshSession;
    if code in s.rooms {
      var room := s.rooms[code];
      RoomFacts(s, code);
      FirstEmptyIs(room.seats, 0);
      if room.game.None? && FirstEmpty(room.seats, 0).Some? {
        var i := FirstEmpty(room.seats, 0).value;
        var room' := room.(seats := room.seats[i := NewHuman(id, name)], revision := room.revision + 1);
        var sessions := s.sessions[id := Stored(code, i, digest, None)];
        JoinedSeats(s, code, id, digest, name, i);
        forall other | other in sessions && sessions[other].roomCode == code
          ensures sessions[other].seat < |room'.seats| && room'.seats[sessions[other].seat].HumanSeat?
                  && room'.seats[sessions[other].seat].session == other
        {
          if other != id {
            assert other in s.sessions;
          }
        }
        FinishedSave(s, code, room', sessions, id, t);
      }
    }
  }

  lemma JoinedSeats(s: Service, code: RoomCode, id: SessionId, digest: string, name: string, i: nat)
    requires Inv(s) && FreshSession(s, id) && code in s.rooms && s.rooms[code].game.None?
    requires i < |s.rooms[code].seats| && s.rooms[code].seats[i].EmptySeat?
    ensures |s.rooms[code].seats| == SEATS
    ensures var room := s.rooms[code];
            var room' := room.(seats := room.seats[i := NewHuman(id, name)], revision := room.revision + 1);
            && SeatsInv(code, room', s.sessions[id := Stored(code, i, digest, None)])
            && PresenceInv(room')
  {
    hide Inv, SeatMatches, OriginalsValid, CachesValid;
    RoomIs(s, code);
    var room := s.rooms[code];
    var room' := room.(seats := room.seats[i := NewHuman(id, name)], revision := room.revision + 1);
    var sessions := s.sessions[id := Stored(code, i, digest, None)];
    forall j: nat | j < SEATS && j != i && room.seats[j].HumanSeat? ensures room.seats[j].session != id {
      assert HoldsSession(room.seats, room.seats[j].session);
    }
    assert HoldsSession(room'.seats, room'.host) by {
      var n :| 0 <= n < |room.seats| && room.seats[n].HumanSeat? && room.seats[n].session == room.host;
      assert room'.seats[n].session == room.host;
    }
    SomeoneSeated(room'.seats, i, sessions);
    NewHumanMatches(code, i, id, name, digest, sessions);
    LobbySeat(code, room, room', s.sessions, sessions, i, id);
  }

  lemma NewHumanMatches(code: RoomCode, i: nat, id: SessionId, name: string, digest: string, sessions: map<SessionId, Stored>)
    requires id in sessions && sessions[id] == Stored(code, i, digest, None)
    ensures SeatMatches(code, i, NewHuman(id, name), sessions)
  {
  }

  lemma CreateIsGood(s: Service, code: RoomCode, id: SessionId, digest: string, name: string, valid: bool, t: Clock)
    requires Inv(s) && code !in s.rooms && FreshSession(s, id)
    ensures Good(Create(s, code, id, digest, name, valid, t))
  {
    hide Inv, PresenceInv, Save, AggregateValid, RecordOf, FreshSession, Isolated;
    var room := Room(0, id, [NewHuman(id, name), EmptySeat, EmptySeat, EmptySeat], t.now + t.idleTtl, None, None);
    var sessions := s.sessions[id := Stored(code, 0, digest, None)];
    NewHumanMatches(code, 0, id, name, digest, sessions);
    NoStrangers(s, code);
    hide SeatMatches;
    assert room.seats[0] == NewHuman(id, name);
    assert HoldsSession(room.seats, room.host);
    assert SeatsInv(code, room, sessions);
    hide SeatsInv;
    assert PresenceInv(room) by {
      LobbyPresence(room);
    }
    OwnChangeIsIsolated(s, code, id, sessions);
    assert Placed(s, code, room, sessions);
    SaveIsGood(s, code, room, sessions, t);
  }

  lemma LobbyPresence(room: Room)
    requires room.game.None?
    ensures PresenceInv(room)
  {
  }

  // Nobody is stored for a Room that does not exist.
  lemma NoStrangers(s: Service, code: RoomCode)
    requires Inv(s) && code !in s.rooms
    ensures forall id :: id in s.sessions ==> s.sessions[id].roomCode != code
  {
    hide RoomInv;
    forall id | id in s.sessions ensures s.sessions[id].roomCode != code {
      assert StoredRight(s.rooms, s.sessions[id], id);
    }
  }

  lemma SetAiSeatIsGood(s: Service, id: SessionId, revision: nat, i: nat, profile: Option<ProfileId>, t: Clock)
    requires Inv(s)
    ensures Good(SetAiSeat(s, id, revision, i, profile, t))
  {
    hide Inv, SeatsInv, PresenceInv, HoldsSession, AnySession, Save, AggregateValid, RecordOf, Touched;
    if IsMember(s, id) {
      var code := s.sessions[id].roomCode;
      var room := s.rooms[code];
      MemberFacts(s, id);
      MemberHeld(s, id);
      RoomFacts(s, code);
      FinishedSave(s, code, room, s.sessions, id, t);
      if i < |room.seats| && !room.seats[i].HumanSeat? && room.game.None? {
        var wanted := if profile.None? then EmptySeat else AiSeat(profile.value);
        var room' := room.(seats := room.seats[i := wanted], revision := room.revision + 1);
        LobbyPresence(room');
        OtherSeatsStay(room.seats, room'.seats, i, s.sessions, room.host);
        LobbyNonHuman(code, room, room', s.sessions, i);
        forall other | other in s.sessions && s.sessions[other].roomCode == code
          ensures s.sessions[other].seat < |room'.seats| && room'.seats[s.sessions[other].seat].HumanSeat?
                  && room'.seats[s.sessions[other].seat].session == other
        {
        }
        FinishedSave(s, code, room', s.sessions, id, t);
      }
    }
  }

  lemma OtherSeatsStay(seats: seq<Seat>, seats': seq<Seat>, i: nat, sessions: map<SessionId, Stored>, id: SessionId)
    requires i < |seats| == |seats'| && !seats[i].HumanSeat? && seats' == seats[i := seats'[i]]
    ensures HoldsSession(seats, id) ==> HoldsSession(seats', id)
    ensures AnySession(seats, sessions) ==> AnySession(seats', sessions)
  {
    if HoldsSession(seats, id) {
      var n :| 0 <= n < |seats| && seats[n].HumanSeat? && seats[n].session == id;
      assert seats'[n] == seats[n];
    }
    if AnySession(seats, sessions) {
      var n :| 0 <= n < |seats| && seats[n].HumanSeat? && seats[n].session in sessions;
      assert seats'[n] == seats[n];
    }
  }

  lemma LobbyNonHuman(code: RoomCode, room: Room, room': Room, sessions: map<SessionId, Stored>, i: nat)
    requires SeatsInv(code, room, sessions) && i < SEATS && room.game.None? && room'.game.None? && room'.abandonedDeadline.None?
    requires |room'.seats| == SEATS && room'.seats == room.seats[i := room'.seats[i]] && !room'.seats[i].HumanSeat?
    requires HoldsSession(room'.seats, room'.host) && AnySession(room'.seats, sessions)
    ensures SeatsInv(code, room', sessions)
  {
    hide SeatMatches, HoldsSession;
    forall j, k | 0 <= j < k < SEATS && room'.seats[j].HumanSeat? && room'.seats[k].HumanSeat?
      ensures room'.seats[j].session != room'.seats[k].session
    {
      assert room.seats[j].session != room.seats[k].session;
    }
    forall j: nat | j < SEATS && room'.seats[j].HumanSeat? ensures SeatMatches(code, j, room'.seats[j], sessions) {
      assert SeatMatches(code, j, room.seats[j], sessions);
    }
  }

  lemma VacatedIsGood(s: Service, id: SessionId, t: Clock)
    requires Inv(s) && IsMember(s, id) && s.rooms[s.sessions[id].roomCode].game.None?
    ensures Good(Vacated(s, s.sessions[id].roomCode, s.sessions[id].seat, id, t))
  {
    hide Inv, SeatsInv, PresenceInv, HoldsSession, AnySession, Save, AggregateValid, RecordOf, Touched, FirstConnected, WithoutRoom, Good;
    var code, i := s.sessions[id].roomCode, s.sessions[id].seat;
    var sessions := s.sessions - {id};
    var room := s.rooms[code].(seats := s.rooms[code].seats[i := EmptySeat], revision := s.rooms[code].revision + 1);
    MemberFacts(s, id);
    MemberHeld(s, id);
    RoomFacts(s, code);
    ClosingIsGood(s, code, None);
    if AnyHuman(room.seats) && !(room.host == id && FirstConnected(room.seats, 0).None?) {
      var hosted := if room.host == id then room.(host := FirstConnected(room.seats, 0).value) else room;
      LobbyPresence(hosted);
      HeirHeld(s, id);
      RemainingSession(s, id);
      forall j: nat | j < SEATS && j != i && s.rooms[code].seats[j].HumanSeat? ensures s.rooms[code].seats[j].session != id {
        DistinctHumans(code, s.rooms[code], s.sessions, i, j);
      }
      LobbySeat(code, s.rooms[code], hosted, s.sessions, sessions, i, id);
      forall other | other in sessions && sessions[other].roomCode == code
        ensures sessions[other].seat < |hosted.seats| && hosted.seats[sessions[other].seat].HumanSeat?
                && hosted.seats[sessions[other].seat].session == other
      {
        assert other in s.sessions && other != id;
      }
      FinishedSave(s, code, hosted, sessions, id, t);
    }
  }

  // The remaining host, old or new, sits in the Room.
  lemma HeirHeld(s: Service, id: SessionId)
    requires Inv(s) && IsMember(s, id)
    ensures s.sessions[id].seat < |s.rooms[s.sessions[id].roomCode].seats|
    ensures var room := s.rooms[s.sessions[id].roomCode];
            var seats := room.seats[s.sessions[id].seat := EmptySeat];
            && (FirstConnected(seats, 0).Some? ==> HoldsSession(seats, FirstConnected(seats, 0).value))
            && (room.host != id ==> HoldsSession(seats, room.host))
  {
    hide Inv, SeatsInv, PresenceInv;
    MemberHeld(s, id);
    var room := s.rooms[s.sessions[id].roomCode];
    var seats := room.seats[s.sessions[id].seat := EmptySeat];
    ConnectedIsHeld(seats, 0);
    if room.host != id {
      var n :| 0 <= n < |room.seats| && room.seats[n].HumanSeat? && room.seats[n].session == room.host;
      assert seats[n] == room.seats[n];
    }
  }

  // In a lobby every remaining Human still has a session.
  lemma RemainingSession(s: Service, id: SessionId)
    requires Inv(s) && IsMember(s, id) && s.rooms[s.sessions[id].roomCode].game.None?
    requires AnyHuman(s.rooms[s.sessions[id].roomCode].seats[s.sessions[id].seat := EmptySeat])
    ensures AnySession(s.rooms[s.sessions[id].roomCode].seats[s.sessions[id].seat := EmptySeat], s.sessions - {id})
  {
    hide Inv, OriginalsValid, CachesValid, PresenceInv;
    var code, i := s.sessions[id].roomCode, s.sessions[id].seat;
    MemberFacts(s, id);
    var room := s.rooms[code];
    var seats := room.seats[i := EmptySeat];
    var n :| 0 <= n < |seats| && seats[n].HumanSeat?;
    DistinctHumans(code, room, s.sessions, i, n);
    assert SeatMatches(code, n, room.seats[n], s.sessions);
    assert seats[n].session in s.sessions - {id};
  }

  // Starting.

  lemma {:induction false} NobodyGone(seats: seq<Seat>, i: nat)
    requires i <= |seats|
    requires forall j :: 0 <= j < |seats| && seats[j].HumanSeat? ==> seats[j].connection == Connected
    ensures GoneSeats(seats, i) == []
    decreases |seats| - i
  {
    if i < |seats| {
      NobodyGone(seats, i + 1);
    }
  }

  lemma StartIsGood(s: Service, id: SessionId, revision: nat, gameId: string, cacheLimit: nat, t: Clock)
    requires Inv(s)
    ensures Good(Start(s, id, revision, gameId, cacheLimit, t))
  {
    hide Inv, HoldsSession, AnySession, Save, AggregateValid, RecordOf, GoneSeats, SeatMatches, Seated, Good;
    if IsMember(s, id) {
      var code := s.sessions[id].roomCode;
      var room := s.rooms[code];
      MemberFacts(s, id);
      RoomFacts(s, code);
      if room.game.None? && StartReady(room.seats) {
        var game := RoomGame(gameId, room.seats, map[], [], None, 0, false, false, cacheLimit, map[]);
        var room' := room.(game := Some(game), revision := room.revision + 1);
        NobodyGone(room.seats, 0);
        assert OriginalsValid(room'.seats, game);
        assert CachesValid(room'.seats, game);
        assert SeatsInv(code, room', s.sessions);
        assert PresenceInv(room');
        SeatedFrame(room, room', code, s.sessions);
        hide SeatsInv, PresenceInv;
        FinishedSave(s, code, room', s.sessions, id, t);
      } else {
        RefusedIsGood(s, RoomNotWaiting);
        RefusedIsGood(s, NotHost);
        RefusedIsGood(s, RevisionConflict);
        RefusedIsGood(s, StartConditionsNotMet);
      }
    }
    RefusedIsGood(s, NotMember);
    RefusedIsGood(s, NotHost);
    RefusedIsGood(s, RevisionConflict);
  }

  lemma RefusedIsGood(s: Service, error: RoomError)
    requires Inv(s)
    ensures Good(Refuse(s, error))
  {
    hide Inv;
  }

  // Replacing.

  lemma ReplacedOriginals(seats: seq<Seat>, i: nat, profile: ProfileId, game: RoomGame, game': RoomGame)
    requires |seats| == SEATS && i < SEATS && seats[i].HumanSeat? && OriginalsValid(seats, game)
    requires game'.originalSeats == game.originalSeats && game'.replacements == game.replacements[i := profile]
    ensures OriginalsValid(seats[i := AiSeat(profile)], game')
  {
    var seats' := seats[i := AiSeat(profile)];
    forall j: nat | j < SEATS ensures SeatFollows(game'.originalSeats[j], seats'[j], j, game'.replacements) {
      assert SeatFollows(game.originalSeats[j], seats[j], j, game.replacements);
    }
  }

  lemma ReplacedCaches(seats: seq<Seat>, i: nat, profile: ProfileId, game: RoomGame, game': RoomGame)
    requires i < |seats| && seats[i].HumanSeat? && CachesValid(seats, game)
    requires game'.cache == game.cache - {seats[i].session}
    requires game'.cacheLimit == game.cacheLimit && game'.stateVersion == game.stateVersion
    ensures CachesValid(seats[i := AiSeat(profile)], game')
  {
    hide CacheValid;
    var seats' := seats[i := AiSeat(profile)];
    forall id | id in game'.cache ensures HoldsSession(seats', id) && CacheValid(game'.cache[id], game'.cacheLimit, game'.stateVersion) {
      assert HoldsSession(seats, id);
      var n :| 0 <= n < |seats| && seats[n].HumanSeat? && seats[n].session == id;
      assert seats'[n] == seats[n];
    }
  }

  lemma ReplacedSeats(s: Service, id: SessionId, i: nat, profile: ProfileId)
    requires Inv(s) && IsMember(s, id)
    requires var room := s.rooms[s.sessions[id].roomCode];
             && room.host == id && room.game.Some? && i < |room.seats| == SEATS && room.seats[i].HumanSeat?
             && room.seats[i].connection == Disconnected
    ensures var code := s.sessions[id].roomCode;
            var room := s.rooms[code];
            var game := room.game.value;
            var game' := game.(replacements := game.replacements[i := profile], cache := game.cache - {room.seats[i].session});
            SeatsInv(code, room.(seats := room.seats[i := AiSeat(profile)], game := Some(game'), revision := room.revision + 1), s.sessions)
  {
    hide Inv, PresenceInv, OriginalsValid, CachesValid, SeatMatches;
    MemberFacts(s, id);
    var code, m := s.sessions[id].roomCode, s.sessions[id].seat;
    var room := s.rooms[code];
    var game := room.game.value;
    var game' := game.(replacements := game.replacements[i := profile], cache := game.cache - {room.seats[i].session});
    var room' := room.(seats := room.seats[i := AiSeat(profile)], game := Some(game'), revision := room.revision + 1);
    ReplacedOriginals(room.seats, i, profile, game, game');
    ReplacedCaches(room.seats, i, profile, game, game');
    assert room'.seats[m] == room.seats[m];
    assert HoldsSession(room'.seats, room'.host);
    forall j, k | 0 <= j < k < SEATS && room'.seats[j].HumanSeat? && room'.seats[k].HumanSeat?
      ensures room'.seats[j].session != room'.seats[k].session
    {
      assert room.seats[j].session != room.seats[k].session;
    }
    forall j: nat | j < SEATS && room'.seats[j].HumanSeat? ensures SeatMatches(code, j, room'.seats[j], s.sessions) {
      assert SeatMatches(code, j, room.seats[j], s.sessions);
    }
    assert exists n :: 0 <= n < SEATS && room'.seats[n].HumanSeat? && room'.seats[n].session in s.sessions by {
      assert room'.seats[m].session in s.sessions;
    }
  }

  lemma ReplaceIsGood(s: Service, id: SessionId, gameId: string, revision: nat, i: nat, profile: ProfileId, t: Clock)
    requires Inv(s)
    ensures Good(ReplaceExpired(s, id, gameId, revision, i, profile, t))
  {
    hide Inv, SeatsInv, PresenceInv, HoldsSession, Save, AggregateValid, RecordOf, SyncedIfPlaying, SeatMatches, PresenceLifecycle;
    var authority := HostAuthority(s, id, gameId, revision);
    if authority.None? {
      var code := s.sessions[id].roomCode;
      var room := s.rooms[code];
      MemberFacts(s, id);
      RoomFacts(s, code);
      if i < |room.seats| && room.seats[i].HumanSeat? && room.seats[i].connection == Disconnected {
        var game := room.game.value;
        var game' := game.(replacements := game.replacements[i := profile], cache := game.cache - {room.seats[i].session});
        var room' := room.(seats := room.seats[i := AiSeat(profile)], game := Some(game'), revision := room.revision + 1);
        ReplacedSeats(s, id, i, profile);
        forall other | other in s.sessions && s.sessions[other].roomCode == code
          ensures s.sessions[other].seat < |room'.seats| && room'.seats[s.sessions[other].seat].HumanSeat?
                  && room'.seats[s.sessions[other].seat].session == other
        {
          StoredIsConnected(s, other);
        }
        FinishedSave(s, code, room', s.sessions, id, t);
      }
    }
  }

  lemma StoredIsConnected(s: Service, id: SessionId)
    requires Inv(s) && id in s.sessions
    ensures IsMember(s, id) && s.rooms[s.sessions[id].roomCode].seats[s.sessions[id].seat].connection != Disconnected
  {
    hide SeatsInv, PresenceInv, HoldsSession;
    StoredIsHeld(s, id);
    MemberFacts(s, id);
  }

  // Playing.

  // Players sit in the Room.
  lemma PlayerIsHeld(seats: seq<Seat>, game: RoomGame, id: SessionId)
    requires |seats| == SEATS && OriginalsValid(seats, game) && IsPlayer(game, id)
    ensures HoldsSession(seats, id)
  {
    var i: nat :| i < |game.originalSeats| && IsPlayerAt(game, id, i);
    assert SeatFollows(game.originalSeats[i], seats[i], i, game.replacements);
    assert seats[i].session == id;
  }

  // Play keeps the caches valid: a result goes to a seated player, under a new command ID, with
  // the version the game has then.
  lemma PlayedCaches(seats: seq<Seat>, game: RoomGame, deed: Deed)
    requires |seats| == SEATS && OriginalsValid(seats, game) && CachesValid(seats, game) && Fits(game, deed)
    ensures CachesValid(seats, AfterDeed(game, deed))
  {
    hide HoldsSession, OriginalsValid, IsPlayer;
    var after := AfterDeed(game, deed);
    if deed.HumanPlays? {
      PlayerIsHeld(seats, game, deed.player);
      EntryCached(CachedFor(game, deed.player), game.cacheLimit, game.stateVersion, deed.commandId, after.stateVersion);
    }
    forall id | id in after.cache ensures HoldsSession(seats, id) && CacheValid(after.cache[id], after.cacheLimit, after.stateVersion) {
      if !deed.HumanPlays? || id != deed.player {
        assert CacheValid(game.cache[id], game.cacheLimit, game.stateVersion);
      }
    }
  }

  lemma EntryCached(entries: seq<CachedResult>, limit: nat, before: int, commandId: string, version: int)
    requires CacheValid(entries, limit, before) && !HasCommand(entries, commandId) && before <= version
    ensures var longer := entries + [CachedResult(commandId, version)];
            CacheValid(if |longer| > limit then longer[1..] else longer, limit, version)
  {
  }

  lemma PlayIsGood(s: Service, code: RoomCode, deed: Deed, t: Clock)
    requires hide *; Inv(s) && Possible(s, PlayStep(code, deed))
    ensures Good(Take(s, PlayStep(code, deed), t))
  {
    hide Inv, HoldsSession, Save, AggregateValid, RecordOf, SeatMatches, GoneSeats, CachesValid, OriginalsValid, Seated, Placed, Isolated,
      Good, Fits;
    var room, game := s.rooms[code], AfterDeed(s.rooms[code].game.value, deed);
    var room' := room.(game := Some(game));
    RoomFacts(s, code);
    OriginalsIgnorePresence(room.seats, room.game.value, game);
    PlayedCaches(room.seats, room.game.value, deed);
    assert SeatsInv(code, room', s.sessions) && PresenceInv(room');
    hide SeatsInv, PresenceInv;
    PlacedSameSeats(s, code, room, room', s.sessions);
    SaveIsGood(s, code, room', s.sessions, t);
  }

  lemma AnnounceIsGood(s: Service, code: RoomCode, t: Clock)
    requires Inv(s) && code in s.rooms
    ensures Good(Save(s, code, s.rooms[code].(revision := s.rooms[code].revision + 1), s.sessions, t))
  {
    hide Inv, HoldsSession, Save, SeatMatches, GoneSeats, CachesValid, OriginalsValid, Placed, Isolated, Good;
    var room := s.rooms[code];
    RoomFacts(s, code);
    var room' := room.(revision := room.revision + 1);
    assert SeatsInv(code, room', s.sessions) && PresenceInv(room');
    hide SeatsInv, PresenceInv;
    PlacedSameSeats(s, code, room, room', s.sessions);
    SaveIsGood(s, code, room', s.sessions, t);
  }

  // Recovering.

  lemma {:induction false} FindSavedIs(sessions: seq<SavedSession>, id: SessionId)
    ensures FindSaved(sessions, id).Some? <==> exists k :: 0 <= k < |sessions| && sessions[k].session == id
    ensures FindSaved(sessions, id).Some? ==>
              FindSaved(sessions, id).value.session == id && FindSaved(sessions, id).value in sessions
  {
    if sessions != [] && sessions[0].session != id {
      FindSavedIs(sessions[1..], id);
      if k :| 0 <= k < |sessions| && sessions[k].session == id {
        assert sessions[1..][k - 1] == sessions[k];
      }
      if k :| 0 <= k < |sessions[1..]| && sessions[1..][k].session == id {
        assert sessions[k + 1] == sessions[1..][k];
      }
    }
  }

  // A saved session is the one found, and it belongs to the seat that holds it.
  lemma FoundIsSeat(record: Record, i: nat)
    requires |record.seats| == SEATS && i < SEATS && record.seats[i].HumanSeat? && RecordSeatValid(record, i)
    ensures FindSaved(record.sessions, record.seats[i].session).Some? <==> record.seats[i].connection != Disconnected
    ensures FindSaved(record.sessions, record.seats[i].session).Some? ==>
              FindSaved(record.sessions, record.seats[i].session).value.seat == i
  {
    var id := record.seats[i].session;
    FindSavedIs(record.sessions, id);
    hide FindSaved;
    if FindSaved(record.sessions, id).Some? {
      var saved := FindSaved(record.sessions, id).value;
      var k :| 0 <= k < |record.sessions| && record.sessions[k] == saved;
      assert record.sessions[k].session == id;
      assert HasSaved(record, id);
    }
  }

  lemma StoredWhenRecovered(s: Service, record: Record, t: Clock, id: SessionId)
    requires id !in s.sessions
    ensures id in RecoveredSessions(s, record, t) <==> FindSaved(record.sessions, id).Some?
    ensures FindSaved(record.sessions, id).Some? ==>
              var saved := FindSaved(record.sessions, id).value;
              RecoveredSessions(s, record, t)[id] == Stored(record.roomCode, saved.seat, saved.tokenDigest, Some(RecoveredDeadline(saved, t)))
  {
    FindSavedIs(record.sessions, id);
    hide FindSaved;
    if FindSaved(record.sessions, id).Some? {
      var k :| 0 <= k < |record.sessions| && record.sessions[k].session == id;
      assert id in set k | 0 <= k < |record.sessions| :: record.sessions[k].session;
    }
  }

  lemma RecoveredMatches(s: Service, record: Record, t: Clock, i: nat)
    requires |record.seats| == SEATS && i < SEATS && record.seats[i].HumanSeat? && RecordSeatValid(record, i)
    requires record.seats[i].session !in s.sessions
    ensures var seat := RecoveredSeat(record.seats[i], record.sessions, t);
            && SameOccupant(record.seats[i], seat)
            && SeatMatches(record.roomCode, i, seat, RecoveredSessions(s, record, t))
            && (record.seats[i].connection != Disconnected ==> seat.connection == Reconnecting)
            && (record.seats[i].connection == Disconnected ==> seat == record.seats[i])
  {
    hide FindSaved, RecoveredSessions;
    FoundIsSeat(record, i);
    StoredWhenRecovered(s, record, t, record.seats[i].session);
  }

  // Each seat keeps its occupant.
  ghost predicate SameOccupants(seats: seq<Seat>, seats': seq<Seat>) {
    |seats| == |seats'| && forall i :: 0 <= i < |seats| ==> seats'[i] == seats[i] || SameOccupant(seats[i], seats'[i])
  }

  lemma OccupantsKeep(seats: seq<Seat>, seats': seq<Seat>, id: SessionId)
    requires SameOccupants(seats, seats') && HoldsSession(seats, id)
    ensures HoldsSession(seats', id)
  {
    var n :| 0 <= n < |seats| && seats[n].HumanSeat? && seats[n].session == id;
    assert seats'[n].HumanSeat? && seats'[n].session == id;
  }

  lemma OccupantsKeepGame(seats: seq<Seat>, seats': seq<Seat>, game: RoomGame)
    requires |seats| == SEATS && SameOccupants(seats, seats') && OriginalsValid(seats, game) && CachesValid(seats, game)
    ensures OriginalsValid(seats', game) && CachesValid(seats', game)
  {
    hide CacheValid, HoldsSession;
    forall j: nat | j < SEATS ensures SeatFollows(game.originalSeats[j], seats'[j], j, game.replacements) {
      assert SeatFollows(game.originalSeats[j], seats[j], j, game.replacements);
    }
    forall id | id in game.cache ensures HoldsSession(seats', id) {
      OccupantsKeep(seats, seats', id);
    }
  }

  lemma RecoveredSeatsInv(s: Service, record: Record, room: Room, t: Clock)
    requires AggregateValid(record)
    requires forall i :: 0 <= i < |record.seats| && record.seats[i].HumanSeat? ==> record.seats[i].session !in s.sessions
    requires room == Room(record.revision, record.host, RecoveredSeats(record.seats, record.sessions, t), record.idleDeadline,
                          record.abandonedDeadline, record.game)
    ensures SeatsInv(record.roomCode, room, RecoveredSessions(s, record, t))
  {
    hide FindSaved, RecoveredSessions, OriginalsValid, CachesValid, SeatMatches, RecordSeatValid, RecoveredSeat, SeatLifecycle,
      PresenceLifecycle, AwayCount, SeatFollows;
    var sessions := RecoveredSessions(s, record, t);
    forall i: nat | i < SEATS && record.seats[i].HumanSeat?
      ensures SameOccupant(record.seats[i], room.seats[i])
      ensures SeatMatches(record.roomCode, i, room.seats[i], sessions)
      ensures record.seats[i].connection != Disconnected ==> room.seats[i].connection == Reconnecting
    {
      assert RecordSeatValid(record, i);
      RecoveredMatches(s, record, t, i);
    }
    forall i: nat | i < SEATS && !record.seats[i].HumanSeat? ensures room.seats[i] == record.seats[i] {
      OthersRecovered(record.seats[i], record.sessions, t);
    }
    assert SameOccupants(record.seats, room.seats);
    assert HoldsSession(record.seats, record.host);
    OccupantsKeep(record.seats, room.seats, record.host);
    forall i, j | 0 <= i < j < SEATS && room.seats[i].HumanSeat? && room.seats[j].HumanSeat?
      ensures room.seats[i].session != room.seats[j].session
    {
      assert record.seats[i].HumanSeat? && record.seats[j].HumanSeat?;
      assert record.seats[i].session != record.seats[j].session;
    }
    SomeoneRecovered(s, record, t);
    if record.game.Some? {
      OccupantsKeepGame(record.seats, room.seats, record.game.value);
    }
  }

  lemma OthersRecovered(seat: Seat, sessions: seq<SavedSession>, t: Clock)
    requires !seat.HumanSeat?
    ensures RecoveredSeat(seat, sessions, t) == seat
  {
  }

  lemma SomeoneRecovered(s: Service, record: Record, t: Clock)
    requires AggregateValid(record)
    requires forall i :: 0 <= i < |record.seats| && record.seats[i].HumanSeat? ==> record.seats[i].session !in s.sessions
    ensures exists i :: 0 <= i < SEATS && RecoveredSeats(record.seats, record.sessions, t)[i].HumanSeat?
                        && RecoveredSeats(record.seats, record.sessions, t)[i].session in RecoveredSessions(s, record, t)
  {
    hide FindSaved, RecoveredSessions, OriginalsValid, CachesValid, SeatMatches, RecordSeatValid, RecoveredSeat, GameValid;
    var first := record.sessions[0];
    var i := first.seat;
    var id := record.seats[i].session;
    assert RecordSeatValid(record, i);
    RecoveredMatches(s, record, t, i);
    FindSavedIs(record.sessions, id);
    StoredWhenRecovered(s, record, t, id);
    assert record.sessions[0].session == id;
    assert RecoveredSeats(record.seats, record.sessions, t)[i].session == id;
  }

  lemma RecoverIsGood(s: Service, record: Record, t: Clock)
    requires Inv(s) && Possible(s, RecoverStep(record))
    ensures Good(RecoverRoom(s, record, t))
  {
    hide Inv, SeatsInv, PresenceInv, AggregateValid, Save, SyncedIfPlaying, RecoveredSessions, RecoveredSeats, Placed, Isolated, Good,
      HoldsSession, RecordOf;
    if Lapsed(record, t) {
      UnchangedIsGood(s);
    } else {
      var room := Room(record.revision, record.host, RecoveredSeats(record.seats, record.sessions, t), record.idleDeadline,
                       record.abandonedDeadline, record.game);
      var sessions := RecoveredSessions(s, record, t);
      RecoveredSeatsInv(s, record, room, t);
      SyncedKeeps(record.roomCode, room, sessions);
      RecoveredIsolated(s, record, t);
      RecoveredPlaced(s, record, room, t);
      PlacedSameSeats(s, record.roomCode, room, SyncedIfPlaying(room), sessions);
      SaveIsGood(s, record.roomCode, SyncedIfPlaying(room), sessions, t);
    }
  }

  lemma UnchangedIsGood(s: Service)
    requires Inv(s)
    ensures Good(RoomOutcome(s, None, None))
  {
    hide Inv;
  }

  lemma PlacedSameSeats(s: Service, code: RoomCode, room: Room, room': Room, sessions: map<SessionId, Stored>)
    requires Placed(s, code, room, sessions) && room'.seats == room.seats
    ensures Placed(s, code, room', sessions)
  {
  }

  // A recovered session is one of the record's, held by one of its seats.
  lemma RecoveredIs(s: Service, record: Record, t: Clock, id: SessionId)
    requires AggregateValid(record) && id in RecoveredSessions(s, record, t)
    ensures FindSaved(record.sessions, id).None? ==> id in s.sessions && RecoveredSessions(s, record, t)[id] == s.sessions[id]
    ensures FindSaved(record.sessions, id).Some? ==>
              exists i :: 0 <= i < |record.seats| && record.seats[i].HumanSeat? && record.seats[i].session == id
  {
    hide OriginalsValid, CachesValid, RecordSeatValid, GameValid;
    FindSavedIs(record.sessions, id);
    hide FindSaved;
    if FindSaved(record.sessions, id).Some? {
      var k :| 0 <= k < |record.sessions| && record.sessions[k].session == id;
      assert record.seats[record.sessions[k].seat].session == id;
    }
  }

  lemma RecoveredIsolated(s: Service, record: Record, t: Clock)
    requires Inv(s) && Possible(s, RecoverStep(record))
    ensures Isolated(s, record.roomCode, RecoveredSessions(s, record, t))
  {
    hide Inv, AggregateValid, FindSaved;
    var sessions := RecoveredSessions(s, record, t);
    forall c, id | c in s.rooms && c != record.roomCode && HoldsSession(s.rooms[c].seats, id) ensures SameEntry(s.sessions, sessions, id) {
      if id in sessions {
        RecoveredIs(s, record, t, id);
      }
    }
  }

  lemma RecoveredPlaced(s: Service, record: Record, room: Room, t: Clock)
    requires Inv(s) && Possible(s, RecoverStep(record))
    requires room.seats == RecoveredSeats(record.seats, record.sessions, t)
    ensures Placed(s, record.roomCode, room, RecoveredSessions(s, record, t))
  {
    hide Inv, FindSaved, RecoveredSessions, OriginalsValid, CachesValid, SeatMatches, RecordSeatValid, RecoveredSeat, GameValid, HoldsSession;
    var sessions := RecoveredSessions(s, record, t);
    NoStrangers(s, record.roomCode);
    forall id | id in sessions
      ensures if sessions[id].roomCode == record.roomCode
              then sessions[id].seat < |room.seats| && room.seats[sessions[id].seat].HumanSeat? && room.seats[sessions[id].seat].session == id
              else id in s.sessions && sessions[id] == s.sessions[id]
    {
      RecoveredIs(s, record, t, id);
      if FindSaved(record.sessions, id).Some? {
        var i :| 0 <= i < |record.seats| && record.seats[i].HumanSeat? && record.seats[i].session == id;
        assert RecordSeatValid(record, i);
        assert FreshSession(s, record.seats[i].session);
        RecoveredMatches(s, record, t, i);
        FoundIsSeat(record, i);
        StoredWhenRecovered(s, record, t, id);
      }
    }
  }

  // Every step.

  lemma ExpireIsGood(s: Service, id: SessionId, t: Clock)
    requires Inv(s) && IsMember(s, id) && s.sessions[id].deadline.Some?
    ensures Good(Expire(s, id, t))
  {
    hide Inv, Vacated, Good;
    if s.rooms[s.sessions[id].roomCode].game.Some? {
      ExpireInGameIsGood(s, id, t);
    } else {
      VacatedIsGood(s, id, t);
    }
  }

  lemma ErrorIsGood(o: RoomOutcome, error: Option<RoomError>)
    requires Good(o)
    ensures Good(o.(error := error))
  {
    hide Inv, AggregateValid;
  }

  lemma ResumeIsGood(s: Service, code: RoomCode, id: SessionId, seat: nat, digest: string, t: Clock)
    requires Inv(s)
    ensures Good(Resume(s, code, id, seat, digest, t))
  {
    hide Inv, Expire, Save, Good, SyncedIfPlaying, TransferredHost, Touched;
    RefusedIsGood(s, SessionInvalid);
    if IsMember(s, id) {
      ReconnectIsGood(s, id, t);
      if s.sessions[id].deadline.Some? {
        ExpireIsGood(s, id, t);
        ErrorIsGood(Expire(s, id, t), Some(SessionInvalid));
      }
    }
  }

  // The step theorem: whatever the operation and whatever the clock, the service's invariant
  // is kept, and the record handed to the repository satisfies the aggregate predicate.
  lemma StepIsGood(s: Service, step: Step, t: Clock)
    requires Inv(s) && Possible(s, step)
    ensures Good(Take(s, step, t))
  {
    hide Inv, Good, Create, Join, Resume, MarkDisconnected, SetReady, SetAiSeat, Vacated, RequestSnapshot, Start, ReplaceExpired,
      Expire, WithoutRoom, Save, RecoverRoom, AggregateValid, FreshSession, PresenceLifecycle;
    UnchangedIsGood(s);
    match step
    case CreateStep(code, id, digest, name, valid) => CreateIsGood(s, code, id, digest, name, valid, t);
    case JoinStep(code, id, digest, name, valid) => JoinIsGood(s, code, id, digest, name, valid, t);
    case ResumeStep(code, id, seat, digest) => ResumeIsGood(s, code, id, seat, digest, t);
    case DisconnectStep(id) => DisconnectIsGood(s, id, t);
    case ReadyStep(id, revision, ready) => SetReadyIsGood(s, id, revision, ready, t);
    case AiSeatStep(id, revision, seat, profile) => SetAiSeatIsGood(s, id, revision, seat, profile, t);
    case LeaveStep(id) =>
      RefusedIsGood(s, NotMember);
      RefusedIsGood(s, RoomNotWaiting);
      if IsMember(s, id) && s.rooms[s.sessions[id].roomCode].game.None? {
        VacatedIsGood(s, id, t);
      }
    case SnapshotStep(id) => SnapshotIsGood(s, id, t);
    case StartStep(id, revision, gameId, cacheLimit) => StartIsGood(s, id, revision, gameId, cacheLimit, t);
    case ReplaceStep(id, gameId, revision, seat, profile) => ReplaceIsGood(s, id, gameId, revision, seat, profile, t);
    case CloseStep(id, gameId, revision) =>
      var authority := HostAuthority(s, id, gameId, revision);
      if authority.Some? {
        RefusedIsGood(s, authority.value);
      } else {
        ClosingIsGood(s, s.sessions[id].roomCode, None);
      }
    case ExpireStep(id) => if IsMember(s, id) && s.sessions[id].deadline.Some? { ExpireIsGood(s, id, t); }
    case IdleStep(code) => if code in s.rooms { ClosingIsGood(s, code, None); }
    case AbandonStep(code) => if code in s.rooms { ClosingIsGood(s, code, None); }
    case PlayStep(code, deed) => PlayIsGood(s, code, deed, t);
    case AnnounceStep(code) => if code in s.rooms { AnnounceIsGood(s, code, t); }
    case RecoverStep(record) => RecoverIsGood(s, record, t);
  }

  // The record a step hands to the repository.
  function Written(o: RoomOutcome): seq<Record> {
    if o.saved.Some? && o.saved.value in o.service.rooms
    then [RecordOf(o.saved.value, o.service.rooms[o.saved.value], o.service.sessions)] else []
  }
}
