// The server as a whole: the room service, the repository it writes and recovers from, writes of
// different Rooms that overlap, crashes that leave any of them uncertain, and restarts, in any
// order.

module RoomStore {
  import opened Board
  import opened Sessions
  import opened Rooms
  import opened RoomSteps
  import opened RoomSafety
  import opened RoomEffects

  // What recovery still has to do: bring a stored Room back, expire its sessions whose deadline
  // has passed, and save what is left of it.
  datatype Work = Load(code: RoomCode) | Lapse(id: SessionId) | Settle(code: RoomCode)

  // A write the repository has not answered yet. A Room has one at most: its queue runs the next
  // operation when the write is done.
  datatype Write = SaveRecord(record: Record) | RemoveRecord

  datatype Process = Process(service: Service, work: seq<Work>, pending: map<RoomCode, Write>)

  // The repository holds one record per Room; `written` lists every record ever handed to it.
  datatype Server = Server(live: Option<Process>, store: map<RoomCode, Record>, written: seq<Record>)

  // How a write ends that nothing else overlaps: it completes, or the process stops, and the write
  // may or may not have happened.
  datatype Fate = Completes | Stops(effect: bool)

  // Recovery proceeds alone. A crash, or a failed write, which stops the service, leaves any of
  // the pending writes done and the others undone.
  datatype Event =
    | Begin(step: Step, clock: Clock)
    | Finish(code: RoomCode)
    | Proceed(clock: Clock, fate: Fate)
    | Crash(done: set<RoomCode>)
    | Boot(order: seq<RoomCode>)

  // Recovery.

  // A saved Room replaces its record; a closed one loses it.
  function StoreAfter(store: map<RoomCode, Record>, before: Service, o: RoomOutcome): map<RoomCode, Record> {
    if o.saved.Some? && o.saved.value in o.service.rooms
    then store[o.saved.value := RecordOf(o.saved.value, o.service.rooms[o.saved.value], o.service.sessions)]
    else store - (before.rooms.Keys - o.service.rooms.Keys)
  }

  function Ended(v: Server, before: Service, o: RoomOutcome, work: seq<Work>, fate: Fate): Server {
    Server(if fate.Completes? then Some(Process(o.service, work, map[])) else None,
           if fate.Completes? || fate.effect then StoreAfter(v.store, before, o) else v.store,
           v.written + Written(o))
  }

  function Lapses(sessions: seq<SavedSession>): seq<Work> {
    seq(|sessions|, k requires 0 <= k < |sessions| => Lapse(sessions[k].session))
  }

  // Recovery refuses to start with a session it already knows.
  predicate Clashes(s: Service, record: Record) {
    exists k :: 0 <= k < |record.sessions| && record.sessions[k].session in s.sessions
  }

  function Loaded(v: Server, p: Process, record: Record, t: Clock, fate: Fate): Server
    requires p.work != []
  {
    var rest := p.work[1..];
    if Lapsed(record, t) then
      Server(if fate.Completes? then Some(Process(p.service, rest, map[])) else None,
             if fate.Completes? || fate.effect then v.store - {record.roomCode} else v.store, v.written)
    else if Clashes(p.service, record) then v.(live := None)
    else
      var o := RecoverRoom(p.service, record, t);
      // A lobby is saved only when it is settled.
      Ended(v, p.service, o.(saved := if record.game.None? then None else o.saved),
            Lapses(record.sessions) + [Settle(record.roomCode)] + rest, fate)
  }

  function Settled(s: Service, code: RoomCode, t: Clock): RoomOutcome {
    if code in s.rooms then Save(s, code, s.rooms[code], s.sessions, t) else RoomOutcome(s, None, None)
  }

  ghost function Proceeded(v: Server, p: Process, t: Clock, fate: Fate): Server
    requires p.work != []
  {
    match p.work[0]
    case Load(code) => if code in v.store then Loaded(v, p, v.store[code], t, fate) else v
    case Lapse(id) => Ended(v, p.service, Take(p.service, ExpireStep(id), t), p.work[1..], fate)
    case Settle(code) => Ended(v, p.service, Settled(p.service, code, t), p.work[1..], fate)
  }

  ghost predicate Lists(order: seq<RoomCode>, store: map<RoomCode, Record>) {
    Distinct(order) && forall code :: code in order <==> code in store
  }

  // Operations.

  // Somebody sits in the Room's record, or in the one that is being written.
  predicate Claims(store: map<RoomCode, Record>, pending: map<RoomCode, Write>, code: RoomCode, id: SessionId) {
    || (code in store && HoldsSession(store[code].seats, id))
    || (code in pending && pending[code].SaveRecord? && HoldsSession(pending[code].record.seats, id))
  }

  // A fresh identifier occurs nowhere, not even in the repository or on the way to it.
  ghost predicate Unused(store: map<RoomCode, Record>, pending: map<RoomCode, Write>, step: Step) {
    step.CreateStep? || step.JoinStep? ==> forall code :: !Claims(store, pending, code, step.id)
  }

  // Operations wait until recovery is done, and for the Room's pending write.
  ghost predicate MayBegin(v: Server, step: Step) {
    && v.live.Some? && v.live.value.work == [] && !step.RecoverStep?
    && Possible(v.live.value.service, step) && Unused(v.store, v.live.value.pending, step)
    && (Concerned(v.live.value.service, step).Some? ==> Concerned(v.live.value.service, step).value !in v.live.value.pending)
  }

  // An operation changes memory and hands over the record; one that closes a Room leaves it in
  // memory until the repository has dropped it.
  function Begun(v: Server, p: Process, concerned: Option<RoomCode>, o: RoomOutcome): Server {
    if o.saved.Some? && o.saved.value in o.service.rooms then
      var code := o.saved.value;
      var record := RecordOf(code, o.service.rooms[code], o.service.sessions);
      v.(live := Some(p.(service := o.service, pending := p.pending[code := SaveRecord(record)])), written := v.written + [record])
    else if o.service != p.service && concerned.Some? then
      v.(live := Some(p.(pending := p.pending[concerned.value := RemoveRecord])))
    else v
  }

  // The repository once some of the pending writes are done.
  function Effected(store: map<RoomCode, Record>, pending: map<RoomCode, Write>, done: set<RoomCode>): map<RoomCode, Record> {
    map code | code in store.Keys + pending.Keys
               && (if code in done && code in pending then pending[code].SaveRecord? else code in store) ::
      if code in done && code in pending then pending[code].record else store[code]
  }

  function Finished(v: Server, p: Process, code: RoomCode): Server
    requires code in p.pending
  {
    var service := if p.pending[code].RemoveRecord? && code in p.service.rooms then WithoutRoom(p.service, code) else p.service;
    v.(live := Some(p.(service := service, pending := p.pending - {code})), store := Effected(v.store, p.pending, {code}))
  }

  function Crashed(v: Server, done: set<RoomCode>): Server {
    v.(live := None, store := if v.live.Some? then Effected(v.store, v.live.value.pending, done) else v.store)
  }

  // One event; one that is not enabled changes nothing.
  ghost function Next(v: Server, e: Event): Server {
    match e
    case Begin(step, t) =>
      if MayBegin(v, step)
      then Begun(v, v.live.value, Concerned(v.live.value.service, step), Take(v.live.value.service, step, t)) else v
    case Finish(code) => if v.live.Some? && code in v.live.value.pending then Finished(v, v.live.value, code) else v
    case Proceed(t, fate) =>
      if v.live.Some? && v.live.value.work != [] then Proceeded(v, v.live.value, t, fate) else v
    case Crash(done) => Crashed(v, done)
    case Boot(order) =>
      if v.live.None? && Lists(order, v.store)
      then v.(live := Some(Process(Service(map[], map[]), seq(|order|, k requires 0 <= k < |order| => Load(order[k])), map[])))
      else v
  }

  const NEW_SERVER := Server(None, map[], [])

  ghost function Run(events: seq<Event>): Server {
    if events == [] then NEW_SERVER else Next(Run(events[..|events| - 1]), events[|events| - 1])
  }

  // The invariant.

  ghost predicate RecordRight(code: RoomCode, record: Record) {
    record.roomCode == code && AggregateValid(record)
  }

  // No session sits in two stored Rooms.
  ghost predicate Apart(store: map<RoomCode, Record>) {
    forall c, d, id :: c in store && d in store && c != d && HoldsSession(store[c].seats, id) ==> !HoldsSession(store[d].seats, id)
  }

  ghost predicate StoreInv(store: map<RoomCode, Record>) {
    && (forall code {:trigger RecordRight(code, store[code])} :: code in store ==> RecordRight(code, store[code]))
    && Apart(store)
  }

  // What the repository knows of a live Room: everybody in it, and, unless recovery has yet to
  // settle the Room, exactly its present state.
  ghost predicate Known(store: map<RoomCode, Record>, s: Service, work: seq<Work>, code: RoomCode)
    requires code in s.rooms
  {
    && code in store
    && (forall id :: HoldsSession(s.rooms[code].seats, id) ==> HoldsSession(store[code].seats, id))
    && (Settle(code) !in work ==> store[code] == RecordOf(code, s.rooms[code], s.sessions))
  }

  ghost predicate WorkInv(store: map<RoomCode, Record>, s: Service, work: seq<Work>) {
    && (forall code :: code in store && code !in s.rooms ==> Load(code) in work)
    && (forall k :: 0 <= k < |work| && work[k].Load? ==> work[k].code in store && work[k].code !in s.rooms)
    && (forall j, k :: 0 <= j < k < |work| && work[j].Load? ==> work[j] != work[k])
  }

  // Nobody is claimed by two Rooms.
  ghost predicate AllApart(store: map<RoomCode, Record>, pending: map<RoomCode, Write>) {
    forall c, d, id :: Claims(store, pending, c, id) && Claims(store, pending, d, id) ==> c == d
  }

  // A record on its way is the live Room's; a record about to go still is.
  ghost predicate Awaited(store: map<RoomCode, Record>, s: Service, pending: map<RoomCode, Write>, code: RoomCode)
    requires code in pending
  {
    && code in s.rooms
    && match pending[code]
       case SaveRecord(record) => RecordRight(code, record) && record == RecordOf(code, s.rooms[code], s.sessions)
       case RemoveRecord => code in store && store[code] == RecordOf(code, s.rooms[code], s.sessions)
  }

  ghost predicate LiveInv(store: map<RoomCode, Record>, p: Process) {
    && Inv(p.service) && HostsAlive(p.service)
    && (forall code {:trigger Known(store, p.service, p.work, code)} ::
          code in p.service.rooms && code !in p.pending ==> Known(store, p.service, p.work, code))
    && (forall code {:trigger Awaited(store, p.service, p.pending, code)} ::
          code in p.pending ==> Awaited(store, p.service, p.pending, code))
    && WorkInv(store, p.service, p.work) && (p.work != [] ==> p.pending == map[])
    && AllApart(store, p.pending)
  }

  ghost predicate ServerInv(v: Server) {
    && StoreInv(v.store)
    && (v.live.Some? ==> LiveInv(v.store, v.live.value))
    && (forall k {:trigger AggregateValid(v.written[k])} :: 0 <= k < |v.written| ==> AggregateValid(v.written[k]))
  }

  // What a step does to the set of Rooms and to who sits in them.

  function Newcomer(step: Step): Option<SessionId> {
    if step.CreateStep? || step.JoinStep? then Some(step.id) else None
  }

  ghost predicate Holders(s: Service, code: RoomCode, seats: seq<Seat>, newcomer: Option<SessionId>) {
    forall id :: HoldsSession(seats, id) ==> newcomer == Some(id) || (code in s.rooms && HoldsSession(s.rooms[code].seats, id))
  }

  // A step saves the Room it is about, closes one, or changes nothing; nobody new sits down but
  // a newcomer.
  ghost predicate Tidy(s: Service, o: RoomOutcome, concerned: Option<RoomCode>, newcomer: Option<SessionId>) {
    if o.saved.Some? then
      && concerned == o.saved && o.service.rooms.Keys == s.rooms.Keys + {o.saved.value}
      && Holders(s, o.saved.value, o.service.rooms[o.saved.value].seats, newcomer)
    else o.service == s || exists code :: code in s.rooms && o.service == WithoutRoom(s, code)
  }

  lemma SeatChanged(seats: seq<Seat>, i: nat, seat: Seat)
    requires i < |seats|
    ensures forall id :: HoldsSession(seats[i := seat], id) ==> HoldsSession(seats, id) || (seat.HumanSeat? && seat.session == id)
  {
    forall id | HoldsSession(seats[i := seat], id) ensures HoldsSession(seats, id) || (seat.HumanSeat? && seat.session == id) {
      var n :| 0 <= n < |seats| && seats[i := seat][n].HumanSeat? && seats[i := seat][n].session == id;
      if n != i {
        assert seats[n].session == id;
      }
    }
  }

  lemma SeatIsHeld(seats: seq<Seat>, i: nat)
    requires i < |seats| && seats[i].HumanSeat?
    ensures HoldsSession(seats, seats[i].session)
  {
  }

  // Saving a Room whose seats come from the old ones, but for seat i.
  lemma SaveIsTidy(s: Service, code: RoomCode, room: Room, sessions: map<SessionId, Stored>, t: Clock, i: nat, newcomer: Option<SessionId>)
    requires code in s.rooms && (room.seats == s.rooms[code].seats
               || (i < |s.rooms[code].seats| && |room.seats| == |s.rooms[code].seats|
                   && room.seats == s.rooms[code].seats[i := room.seats[i]]
                   && (room.seats[i].HumanSeat? ==>
                         || newcomer == Some(room.seats[i].session)
                         || SameOccupant(s.rooms[code].seats[i], room.seats[i]))))
    ensures Tidy(s, Save(s, code, room, sessions, t), Some(code), newcomer)
  {
    hide HoldsSession, BeforeSave;
    FacesKept(t);
    var seats := s.rooms[code].seats;
    assert FaceOf(BeforeSave(room, t)) == FaceOf(room);
    if room.seats != seats {
      SeatChanged(seats, i, room.seats[i]);
      if seats[i].HumanSeat? {
        SeatIsHeld(seats, i);
      }
    }
  }

  lemma JoinedIsTidy(s: Service, step: Step, t: Clock)
    requires hide *; Possible(s, step) && step.JoinStep?
    ensures Tidy(s, Take(s, step, t), Concerned(s, step), Newcomer(step))
  {
    hide BeforeSave, Touched, NameTaken, FirstEmpty, FreshSession, Tidy, Save;
    FacesKept(t);
    RefusedIsTidy(s, Concerned(s, step), Newcomer(step));
    var code, id := step.code, step.id;
    if code in s.rooms && FirstEmpty(s.rooms[code].seats, 0).Some? && FirstEmpty(s.rooms[code].seats, 0).value < |s.rooms[code].seats| {
      var room, i := s.rooms[code], FirstEmpty(s.rooms[code].seats, 0).value;
      var joined := room.(seats := room.seats[i := NewHuman(id, step.name)], revision := room.revision + 1);
      assert FaceOf(Touched(joined, t)) == FaceOf(joined);
      SaveIsTidy(s, code, Touched(joined, t), s.sessions[id := Stored(code, i, step.digest, None)], t, i, Some(id));
    }
  }

  lemma CreatedIsTidy(s: Service, step: Step, t: Clock)
    requires hide *; Possible(s, step) && step.CreateStep?
    ensures Tidy(s, Take(s, step, t), Concerned(s, step), Newcomer(step))
  {
    hide BeforeSave, FreshSession, Tidy, Save;
    FoundedIsTidy(s, step.code, step.id, step.name, t.now + t.idleTtl, s.sessions[step.id := Stored(step.code, 0, step.digest, None)], t);
    RefusedIsTidy(s, Some(step.code), Some(step.id));
  }

  lemma FoundedIsTidy(s: Service, code: RoomCode, id: SessionId, name: string, deadline: int, sessions: map<SessionId, Stored>, t: Clock)
    ensures var room := Room(0, id, [NewHuman(id, name), EmptySeat, EmptySeat, EmptySeat], deadline, None, None);
            Tidy(s, Save(s, code, room, sessions, t), Some(code), Some(id))
  {
    hide BeforeSave;
    FacesKept(t);
    var room := Room(0, id, [NewHuman(id, name), EmptySeat, EmptySeat, EmptySeat], deadline, None, None);
    assert FaceOf(BeforeSave(room, t)) == FaceOf(room);
  }

  lemma RefusedIsTidy(s: Service, concerned: Option<RoomCode>, newcomer: Option<SessionId>)
    ensures forall error :: Tidy(s, Refuse(s, error), concerned, newcomer)
    ensures Tidy(s, RoomOutcome(s, None, None), concerned, newcomer)
  {
  }

  lemma ClosedIsTidy(s: Service, code: RoomCode, concerned: Option<RoomCode>, newcomer: Option<SessionId>)
    requires code in s.rooms
    ensures Tidy(s, RoomOutcome(WithoutRoom(s, code), None, None), concerned, newcomer)
  {
    hide WithoutRoom;
  }

  // Saving a Room with the seats it had.
  lemma SameSeatsAreTidy(s: Service, t: Clock)
    ensures forall code: RoomCode, room: Room, sessions: map<SessionId, Stored> {:trigger Save(s, code, room, sessions, t)} ::
              code in s.rooms && FaceOf(room).seats == s.rooms[code].seats ==> Tidy(s, Save(s, code, room, sessions, t), Some(code), None)
  {
    hide Tidy, Save;
    forall code: RoomCode, room: Room, sessions: map<SessionId, Stored> | code in s.rooms && FaceOf(room).seats == s.rooms[code].seats
      ensures Tidy(s, Save(s, code, room, sessions, t), Some(code), None)
    {
      SaveIsTidy(s, code, room, sessions, t, 0, None);
    }
  }

  // Saving a Room with one seat changed, but not given to anybody new.
  lemma OneSeatIsTidy(s: Service, i: nat, t: Clock)
    ensures forall code: RoomCode, room: Room, sessions: map<SessionId, Stored> {:trigger Save(s, code, room, sessions, t)} ::
              code in s.rooms && i < |s.rooms[code].seats| && |room.seats| == |s.rooms[code].seats|
              && FaceOf(room).seats == s.rooms[code].seats[i := room.seats[i]]
              && (room.seats[i].HumanSeat? ==> SameOccupant(s.rooms[code].seats[i], room.seats[i])) ==>
                Tidy(s, Save(s, code, room, sessions, t), Some(code), None)
  {
    hide Tidy, Save;
    forall code: RoomCode, room: Room, sessions: map<SessionId, Stored>
        | code in s.rooms && i < |s.rooms[code].seats| && |room.seats| == |s.rooms[code].seats|
          && FaceOf(room).seats == s.rooms[code].seats[i := room.seats[i]]
          && (room.seats[i].HumanSeat? ==> SameOccupant(s.rooms[code].seats[i], room.seats[i]))
      ensures Tidy(s, Save(s, code, room, sessions, t), Some(code), None)
    {
      SaveIsTidy(s, code, room, sessions, t, i, None);
    }
  }

  lemma SeatsStayTidy(s: Service, step: Step, t: Clock)
    requires hide *; Possible(s, step) && (step.SnapshotStep? || step.StartStep? || step.PlayStep? || step.AnnounceStep?)
    ensures Tidy(s, Take(s, step, t), Concerned(s, step), Newcomer(step))
  {
    hide BeforeSave, Touched, SyncedIfPlaying, StartReady, PresenceLifecycle, Tidy, Save, Fits, AfterDeed;
    FacesKept(t);
    RefusedIsTidy(s, Concerned(s, step), None);
    SameSeatsAreTidy(s, t);
  }

  lemma SeatIsTidy(s: Service, step: Step, t: Clock)
    requires hide *; Possible(s, step) && (step.ReadyStep? || step.AiSeatStep? || step.ReplaceStep? || step.DisconnectStep?)
    ensures Tidy(s, Take(s, step, t), Concerned(s, step), Newcomer(step))
  {
    hide BeforeSave, Touched, SyncedIfPlaying, PresenceLifecycle, Tidy, Save;
    FacesKept(t);
    RefusedIsTidy(s, Concerned(s, step), None);
    SameSeatsAreTidy(s, t);
    if (step.ReadyStep? || step.DisconnectStep?) && IsMember(s, step.id) {
      OneSeatIsTidy(s, s.sessions[step.id].seat, t);
    }
    if step.AiSeatStep? || step.ReplaceStep? {
      OneSeatIsTidy(s, step.seat, t);
    }
  }

  lemma VacatedIsTidy(s: Service, id: SessionId, t: Clock)
    requires IsMember(s, id)
    ensures Tidy(s, Vacated(s, s.sessions[id].roomCode, s.sessions[id].seat, id, t), Some(s.sessions[id].roomCode), None)
  {
    hide BeforeSave, Touched, Tidy, Save, WithoutRoom, FirstConnected, AnyHuman;
    FacesKept(t);
    OneSeatIsTidy(s, s.sessions[id].seat, t);
    ClosedIsTidy(s, s.sessions[id].roomCode, Some(s.sessions[id].roomCode), None);
  }

  lemma ExpiredIsTidy(s: Service, id: SessionId, t: Clock)
    requires IsMember(s, id)
    ensures Tidy(s, Expire(s, id, t), Some(s.sessions[id].roomCode), None)
  {
    hide BeforeSave, SyncedIfPlaying, Tidy, Save, WithoutRoom, FirstConnected, AnySession, Vacated;
    FacesKept(t);
    VacatedIsTidy(s, id, t);
    OneSeatIsTidy(s, s.sessions[id].seat, t);
    ClosedIsTidy(s, s.sessions[id].roomCode, Some(s.sessions[id].roomCode), None);
  }

  lemma ResumedIsTidy(s: Service, step: Step, t: Clock)
    requires step.ResumeStep?
    ensures Tidy(s, Resume(s, step.code, step.id, step.seat, step.digest, t), Concerned(s, step), None)
  {
    hide BeforeSave, SyncedIfPlaying, Touched, Tidy, Save, FirstConnected, Expire;
    FacesKept(t);
    RefusedIsTidy(s, Concerned(s, step), None);
    if IsMember(s, step.id) {
      ExpiredIsTidy(s, step.id, t);
      ErrorIsTidy(s, Expire(s, step.id, t), Concerned(s, step));
      SameSeatsAreTidy(s, t);
      OneSeatIsTidy(s, s.sessions[step.id].seat, t);
    }
  }

  lemma ErrorIsTidy(s: Service, o: RoomOutcome, concerned: Option<RoomCode>)
    requires Tidy(s, o, concerned, None)
    ensures forall error :: Tidy(s, o.(error := error), concerned, None)
  {
    hide Holders;
  }

  // Every step is tidy.
  lemma StepIsTidy(s: Service, step: Step, t: Clock)
    requires hide *; Possible(s, step) && !step.RecoverStep?
    ensures Tidy(s, Take(s, step, t), Concerned(s, step), Newcomer(step))
  {
    hide Tidy, Create, Join, Resume, MarkDisconnected, SetReady, SetAiSeat, RequestSnapshot, Start, ReplaceExpired,
      Expire, Vacated, WithoutRoom, Save, FreshSession, PresenceLifecycle, Fits;
    RefusedIsTidy(s, Concerned(s, step), None);
    match step {
      case CreateStep(_, _, _, _, _) => CreatedIsTidy(s, step, t);
      case JoinStep(_, _, _, _, _) => JoinedIsTidy(s, step, t);
      case ResumeStep(_, _, _, _) => ResumedIsTidy(s, step, t);
      case LeaveStep(id) => if IsMember(s, id) { VacatedIsTidy(s, id, t); }
      case ExpireStep(id) => if IsMember(s, id) { ExpiredIsTidy(s, id, t); }
      case CloseStep(id, _, _) => if IsMember(s, id) { ClosedIsTidy(s, s.sessions[id].roomCode, Concerned(s, step), None); }
      case IdleStep(code) => if code in s.rooms { ClosedIsTidy(s, code, Concerned(s, step), None); }
      case AbandonStep(code) => if code in s.rooms { ClosedIsTidy(s, code, Concerned(s, step), None); }
      case ReadyStep(_, _, _) => SeatIsTidy(s, step, t);
      case AiSeatStep(_, _, _, _) => SeatIsTidy(s, step, t);
      case ReplaceStep(_, _, _, _, _) => SeatIsTidy(s, step, t);
      case DisconnectStep(_) => SeatIsTidy(s, step, t);
      case _ => SeatsStayTidy(s, step, t);
    }
  }

  // What the repository keeps of the other Rooms stays right.

  lemma {:induction false} SavedFrame(seats: seq<Seat>, sessions: map<SessionId, Stored>, sessions': map<SessionId, Stored>, i: nat)
    requires i <= |seats|
    requires forall id :: HoldsSession(seats, id) ==> SameEntry(sessions, sessions', id)
    ensures SavedSessions(seats, sessions', i) == SavedSessions(seats, sessions, i)
    decreases |seats| - i
  {
    hide HoldsSession;
    if i < |seats| {
      SavedFrame(seats, sessions, sessions', i + 1);
      if seats[i].HumanSeat? {
        SeatIsHeld(seats, i);
      }
    }
  }

  lemma RecordStays(s: Service, code: RoomCode, after: Service, d: RoomCode)
    requires OthersStay(s, code, after) && d in s.rooms && d != code
    ensures d in after.rooms && RecordOf(d, after.rooms[d], after.sessions) == RecordOf(d, s.rooms[d], s.sessions)
  {
    hide HoldsSession, SavedSessions, SameEntry;
    SavedFrame(s.rooms[d].seats, s.sessions, after.sessions, 0);
  }

  ghost predicate AllKnown(store: map<RoomCode, Record>, s: Service, work: seq<Work>) {
    forall code {:trigger Known(store, s, work, code)} :: code in s.rooms ==> Known(store, s, work, code)
  }

  // Someone the repository has in a Room is in no other stored Room.
  lemma HolderIsApart(store: map<RoomCode, Record>, s: Service, work: seq<Work>, code: RoomCode, seats: seq<Seat>, d: RoomCode, id: SessionId)
    requires StoreInv(store) && AllKnown(store, s, work) && Holders(s, code, seats, None)
    requires d in store && d != code && HoldsSession(seats, id)
    ensures !HoldsSession(store[d].seats, id)
  {
    hide RecordRight, HoldsSession, RecordOf;
    assert Known(store, s, work, code);
  }

  lemma StoreKeeps(store: map<RoomCode, Record>, s: Service, work: seq<Work>, o: RoomOutcome, concerned: Option<RoomCode>)
    requires StoreInv(store) && AllKnown(store, s, work) && Good(o) && Tidy(s, o, concerned, None)
    ensures StoreInv(StoreAfter(store, s, o))
  {
    hide Inv, AggregateValid, HoldsSession, Holders, Known, AllKnown, WithoutRoom;
    var after := StoreAfter(store, s, o);
    forall code | code in after ensures RecordRight(code, after[code]) {
      assert code in store ==> RecordRight(code, store[code]);
    }
    forall c, d, id | c in after && d in after && c != d && HoldsSession(after[c].seats, id) ensures !HoldsSession(after[d].seats, id) {
      if o.saved.Some? {
        var code := o.saved.value;
        if c == code {
          HolderIsApart(store, s, work, code, after[c].seats, d, id);
        } else if d == code && HoldsSession(after[d].seats, id) {
          HolderIsApart(store, s, work, code, after[d].seats, c, id);
        }
      }
    }
  }

  // Live Rooms stay known when an outcome takes effect, and the work shrinks from the front.
  lemma KnownKeeps(store: map<RoomCode, Record>, p: Process, o: RoomOutcome, code: RoomCode, newcomer: Option<SessionId>,
                   work: seq<Work>, d: RoomCode)
    requires AllKnown(store, p.service, p.work) && OthersStay(p.service, code, o.service)
    requires Tidy(p.service, o, if o.saved.Some? then Some(code) else None, newcomer)
    requires forall c :: Settle(c) in p.work && c in o.service.rooms && o.saved != Some(c) ==> Settle(c) in work
    requires d in o.service.rooms
    ensures Known(StoreAfter(store, p.service, o), o.service, work, d)
  {
    hide HoldsSession, Holders, OthersStay, WithoutRoom;
    if o.saved != Some(d) {
      StaysIn(p.service, o, code, newcomer, d);
      assert Known(store, p.service, p.work, d);
      if o.service != p.service {
        RecordStays(p.service, code, o.service, d);
      }
    }
    hide SavedSessions;
  }

  // A Room the outcome neither saves nor removes is the one there was.
  lemma StaysIn(s: Service, o: RoomOutcome, code: RoomCode, newcomer: Option<SessionId>, d: RoomCode)
    requires OthersStay(s, code, o.service) && Tidy(s, o, if o.saved.Some? then Some(code) else None, newcomer)
    requires d in o.service.rooms && o.saved != Some(d)
    ensures d in s.rooms && o.service.rooms[d] == s.rooms[d] && (o.service != s ==> d != code)
  {
    hide HoldsSession, Isolated, Holders;
    if o.saved.None? && o.service != s {
      var c :| c in s.rooms && o.service == WithoutRoom(s, c);
      assert c !in o.service.rooms;
      assert c == code;
    }
  }

  lemma WorkKeeps(store: map<RoomCode, Record>, p: Process, o: RoomOutcome, concerned: Option<RoomCode>, newcomer: Option<SessionId>)
    requires WorkInv(store, p.service, p.work) && Tidy(p.service, o, concerned, newcomer)
    requires p.work != [] ==> !p.work[0].Load? && (o.saved.Some? ==> o.saved.value in p.service.rooms)
    ensures WorkInv(StoreAfter(store, p.service, o), o.service, if p.work == [] then [] else p.work[1..])
  {
    hide RecordOf, Holders, HoldsSession;
    var work := if p.work == [] then [] else p.work[1..];
    var after := StoreAfter(store, p.service, o);
    assert forall k :: 0 <= k < |work| ==> work[k] == p.work[k + 1];
    forall c | c in after && c !in o.service.rooms ensures Load(c) in work {
      assert Load(c) in p.work;
    }
  }

  lemma NothingPending(store: map<RoomCode, Record>)
    requires StoreInv(store)
    ensures AllApart(store, map[])
  {
    hide RecordRight, HoldsSession;
  }

  // An expiry during recovery, or the save that settles a Room.
  lemma EndedKeeps(v: Server, p: Process, o: RoomOutcome, code: RoomCode, fate: Fate)
    requires ServerInv(v) && v.live == Some(p) && p.work != []
    requires Good(o) && HostsAlive(o.service) && OthersStay(p.service, code, o.service)
    requires Tidy(p.service, o, if o.saved.Some? then Some(code) else None, None)
    requires !p.work[0].Load? && (o.saved.Some? ==> o.saved.value in p.service.rooms)
    requires p.work[0].Settle? && p.work[0].code in o.service.rooms ==> o.saved == Some(p.work[0].code)
    ensures ServerInv(Ended(v, p.service, o, p.work[1..], fate))
  {
    hide Inv, HostsAlive, AggregateValid, HoldsSession, Known, OthersStay, Tidy, RecordOf, WorkInv, StoreInv, StoreAfter, AllApart;
    var work := p.work[1..];
    var store := StoreAfter(v.store, p.service, o);
    assert forall k :: 0 <= k < |work| ==> work[k] == p.work[k + 1];
    StoreKeeps(v.store, p.service, p.work, o, if o.saved.Some? then Some(code) else None);
    NothingPending(store);
    WorkKeeps(v.store, p, o, if o.saved.Some? then Some(code) else None, None);
    forall d | d in o.service.rooms ensures Known(store, o.service, work, d) {
      KnownKeeps(v.store, p, o, code, None, work, d);
    }
    WrittenIsValid(o);
    assert Inv(o.service) by {
      GoodIsInv(o);
    }
  }

  lemma WrittenIsValid(o: RoomOutcome)
    requires Good(o)
    ensures forall k :: 0 <= k < |Written(o)| ==> AggregateValid(Written(o)[k])
  {
    hide Inv, AggregateValid, RecordOf;
  }

  // Recovery.

  // A record still to be loaded is valid, and nobody in it is known to the service: the check
  // for duplicate sessions never fails.
  lemma RecordIsFresh(v: Server, p: Process)
    requires hide *; ServerInv(v) && v.live == Some(p) && p.work != [] && p.work[0].Load?
    ensures var code := p.work[0].code;
            && code in v.store && v.store[code].roomCode == code
            && Possible(p.service, RecoverStep(v.store[code])) && !Clashes(p.service, v.store[code])
  {
    hide Inv, HostsAlive, HoldsSession, RecordOf;
    var code, s := p.work[0].code, p.service;
    assert RecordRight(code, v.store[code]);
    hide AggregateValid;
    var record := v.store[code];
    forall id | HoldsSession(record.seats, id) ensures FreshSession(s, id) {
      forall c | c in s.rooms ensures !HoldsSession(s.rooms[c].seats, id) {
        assert Known(v.store, s, p.work, c);
      }
      if id in s.sessions {
        StoredIsHeld(s, id) by {
          InvStored(s);
        }
      }
    }
    hide FreshSession;
    forall i | 0 <= i < |record.seats| && record.seats[i].HumanSeat? ensures FreshSession(s, record.seats[i].session) {
      SeatIsHeld(record.seats, i);
    }
    forall k | 0 <= k < |record.sessions| ensures record.sessions[k].session !in s.sessions {
      SavedIsHeld(record, k);
      FreshIsUnknown(s, record.sessions[k].session);
    }
  }

  lemma InvStored(s: Service)
    requires Inv(s)
    ensures SessionsInv(s.rooms, s.sessions)
  {
    hide RoomInv, StoredRight;
  }

  lemma FreshIsUnknown(s: Service, id: SessionId)
    requires FreshSession(s, id)
    ensures id !in s.sessions
  {
  }

  lemma SavedIsHeld(record: Record, k: nat)
    requires AggregateValid(record) && k < |record.sessions|
    ensures HoldsSession(record.seats, record.sessions[k].session)
  {
    hide RecordSeatValid, GameValid;
    var i := record.sessions[k].seat;
    assert record.seats[i].HumanSeat? && record.seats[i].session == record.sessions[k].session;
  }

  // A recovered Room seats the people of its record.
  lemma RecoveredHolders(s: Service, record: Record, t: Clock)
    requires !Lapsed(record, t)
    ensures var o := RecoverRoom(s, record, t);
            && o.saved == Some(record.roomCode) && o.service.rooms.Keys == s.rooms.Keys + {record.roomCode}
            && forall id :: HoldsSession(o.service.rooms[record.roomCode].seats, id) ==> HoldsSession(record.seats, id)
  {
    hide BeforeSave, SyncedIfPlaying, FindSaved, RecoveredSessions;
    FacesKept(t);
  }

  ghost predicate OnlyFrom(seats: seq<Seat>, before: seq<Seat>) {
    forall id :: HoldsSession(seats, id) ==> HoldsSession(before, id)
  }

  lemma LoadedStore(store: map<RoomCode, Record>, code: RoomCode, record: Record)
    requires StoreInv(store) && code in store && RecordRight(code, record) && OnlyFrom(record.seats, store[code].seats)
    ensures StoreInv(store[code := record])
  {
    hide AggregateValid, HoldsSession;
    var after := store[code := record];
    forall c | c in after ensures RecordRight(c, after[c]) {
      assert c != code ==> RecordRight(c, store[c]);
    }
    forall c, d, id | c in after && d in after && c != d && HoldsSession(after[c].seats, id) ensures !HoldsSession(after[d].seats, id) {
      assert HoldsSession(store[c].seats, id);
    }
  }

  lemma LoadedWork(store: map<RoomCode, Record>, store': map<RoomCode, Record>, s: Service, after: Service, work: seq<Work>, lapses: seq<Work>)
    requires WorkInv(store, s, work) && work != [] && work[0].Load?
    requires store'.Keys == store.Keys && after.rooms.Keys == s.rooms.Keys + {work[0].code}
    requires forall k :: 0 <= k < |lapses| ==> !lapses[k].Load?
    ensures WorkInv(store', after, lapses + work[1..])
  {
    var rest := work[1..];
    var work' := lapses + rest;
    assert forall k :: |lapses| <= k < |work'| ==> work'[k] == work[k - |lapses| + 1];
    forall c | c in store' && c !in after.rooms ensures Load(c) in work' {
      assert Load(c) in work;
      assert Load(c) in rest;
    }
  }

  lemma LoadKeeps(v: Server, p: Process, t: Clock, fate: Fate)
    requires hide *; ServerInv(v) && v.live == Some(p) && p.work != [] && p.work[0].Load?
    requires p.work[0].code in v.store && !Lapsed(v.store[p.work[0].code], t)
    ensures ServerInv(Loaded(v, p, v.store[p.work[0].code], t, fate))
  {
    hide Inv, HostsAlive, HoldsSession, RecordOf, AggregateValid, RecoverRoom, Lapsed, WorkInv, StoreInv, Known, FreshSession, Clashes,
      OthersStay, AllApart;
    RecordIsFresh(v, p);
    var code, s := p.work[0].code, p.service;
    var record := v.store[code];
    var o := RecoverRoom(s, record, t);
    RecoverIsGood(s, record, t);
    RecoveredStays(s, record, t);
    RecoveredHolders(s, record, t);
    HostStaysAlive(s, RecoverStep(record), t);
    WrittenIsValid(o);
    var lapses := Lapses(record.sessions) + [Settle(code)];
    var work := Lapses(record.sessions) + [Settle(code)] + p.work[1..];
    var saved := RecordOf(code, o.service.rooms[code], o.service.sessions);
    var store := if record.game.None? then v.store else v.store[code := saved];
    SavedSeats(code, o.service.rooms[code], o.service.sessions);
    assert OnlyFrom(saved.seats, record.seats) && RecordRight(code, saved);
    LoadedStore(v.store, code, saved);
    NothingPending(store);
    LoadedWork(v.store, store, s, o.service, p.work, lapses);
    forall d | d in o.service.rooms ensures Known(store, o.service, work, d) {
      LoadedKnown(v.store, store, p, record, o.service, work, d);
    }
    assert v.store - (s.rooms.Keys - o.service.rooms.Keys) == v.store;
  }

  lemma SavedSeats(code: RoomCode, room: Room, sessions: map<SessionId, Stored>)
    ensures RecordOf(code, room, sessions).seats == room.seats && RecordOf(code, room, sessions).roomCode == code
  {
    hide SavedSessions;
  }

  lemma LoadedKnown(store: map<RoomCode, Record>, store': map<RoomCode, Record>, p: Process, record: Record, after: Service,
                    work: seq<Work>, d: RoomCode)
    requires AllKnown(store, p.service, p.work) && OthersStay(p.service, record.roomCode, after) && d in after.rooms
    requires p.work != [] && p.work[0].Load? && record.roomCode in store && store[record.roomCode] == record
    requires after.rooms.Keys == p.service.rooms.Keys + {record.roomCode} && Settle(record.roomCode) in work
    requires OnlyFrom(after.rooms[record.roomCode].seats, record.seats)
    requires store' == store || store' == store[record.roomCode := RecordOf(record.roomCode, after.rooms[record.roomCode], after.sessions)]
    requires forall c :: Settle(c) in p.work ==> Settle(c) in work
    ensures Known(store', after, work, d)
  {
    hide HoldsSession, SavedSessions;
    if d != record.roomCode {
      RecordStays(p.service, record.roomCode, after, d);
      SameRoom(p.service, record.roomCode, after, d);
      assert Known(store, p.service, p.work, d);
    }
  }

  lemma SameRoom(s: Service, code: RoomCode, after: Service, d: RoomCode)
    requires OthersStay(s, code, after) && d != code && d in after.rooms
    ensures d in s.rooms && after.rooms[d] == s.rooms[d]
  {
    hide Isolated;
  }

  // A lapsed record is dropped.
  lemma LapsedKeeps(v: Server, p: Process, t: Clock, fate: Fate)
    requires hide *; ServerInv(v) && v.live == Some(p) && p.work != [] && p.work[0].Load?
    requires p.work[0].code in v.store && Lapsed(v.store[p.work[0].code], t)
    ensures ServerInv(Loaded(v, p, v.store[p.work[0].code], t, fate))
  {
    hide Inv, HostsAlive, HoldsSession, RecordOf, AggregateValid, Lapsed;
    var code, s := p.work[0].code, p.service;
    assert RecordRight(code, v.store[code]);
    var store, rest := v.store - {code}, p.work[1..];
    forall c | c in store ensures RecordRight(c, store[c]) {
      assert RecordRight(c, v.store[c]);
    }
    assert forall k :: 0 <= k < |rest| ==> rest[k] == p.work[k + 1];
    forall d | d in s.rooms ensures Known(store, s, rest, d) {
      assert Known(v.store, s, p.work, d);
      assert Settle(d) in p.work ==> Settle(d) in rest;
    }
    forall c | c in store && c !in s.rooms ensures Load(c) in rest {
      assert Load(c) in p.work;
    }
    NothingPending(store);
  }

  // Overlapping writes.

  lemma FewerClaims(store: map<RoomCode, Record>, pending: map<RoomCode, Write>, store': map<RoomCode, Record>, pending': map<RoomCode, Write>)
    requires AllApart(store, pending)
    requires forall c, id :: Claims(store', pending', c, id) ==> Claims(store, pending, c, id)
    ensures AllApart(store', pending')
  {
    hide Claims;
  }

  lemma EffectedClaims(store: map<RoomCode, Record>, pending: map<RoomCode, Write>, done: set<RoomCode>, left: map<RoomCode, Write>)
    requires forall code :: code in left ==> code in pending && left[code] == pending[code]
    ensures forall c, id :: Claims(Effected(store, pending, done), left, c, id) ==> Claims(store, pending, c, id)
  {
    hide HoldsSession;
  }

  // Whichever of the pending writes are done, the repository is right.
  lemma EffectedKeeps(store: map<RoomCode, Record>, pending: map<RoomCode, Write>, done: set<RoomCode>)
    requires StoreInv(store) && AllApart(store, pending)
    requires forall code {:trigger pending[code]} :: code in pending && pending[code].SaveRecord? ==> RecordRight(code, pending[code].record)
    ensures StoreInv(Effected(store, pending, done))
  {
    hide RecordRight, HoldsSession, Claims, AllApart;
    var after := Effected(store, pending, done);
    forall code | code in after ensures RecordRight(code, after[code]) {
      assert code in store ==> RecordRight(code, store[code]);
    }
    EffectedClaims(store, pending, done, map[]);
    FewerClaims(store, pending, after, map[]);
    ApartAlone(after);
  }

  lemma ApartAlone(store: map<RoomCode, Record>)
    requires AllApart(store, map[])
    ensures Apart(store)
  {
    hide HoldsSession;
    forall c, d, id | c in store && d in store && c != d && HoldsSession(store[c].seats, id) ensures !HoldsSession(store[d].seats, id) {
      assert Claims(store, map[], c, id);
      assert HoldsSession(store[d].seats, id) ==> Claims(store, map[], d, id);
    }
  }

  lemma CrashKeeps(v: Server, done: set<RoomCode>)
    requires ServerInv(v)
    ensures ServerInv(Crashed(v, done))
  {
    hide Inv, HostsAlive, AggregateValid, StoreInv, AllApart, Known, WorkInv, RecordOf, Effected;
    if v.live.Some? {
      var p := v.live.value;
      PendingRight(v, p);
      EffectedKeeps(v.store, p.pending, done);
    }
  }

  lemma PendingRight(v: Server, p: Process)
    requires ServerInv(v) && v.live == Some(p)
    ensures forall code {:trigger p.pending[code]} :: code in p.pending && p.pending[code].SaveRecord? ==> RecordRight(code, p.pending[code].record)
  {
    hide Inv, HostsAlive, RecordRight, StoreInv, AllApart, Known, WorkInv, RecordOf;
    forall code | code in p.pending && p.pending[code].SaveRecord? ensures RecordRight(code, p.pending[code].record) {
      assert Awaited(v.store, p.service, p.pending, code);
    }
  }

  // What other Rooms have in the repository, or on the way there, stays right.
  lemma OtherStays(store: map<RoomCode, Record>, p: Process, code: RoomCode, after: Service, store': map<RoomCode, Record>,
                   pending: map<RoomCode, Write>, d: RoomCode)
    requires LiveInv(store, p) && p.work == [] && OthersStay(p.service, code, after) && d != code && d in after.rooms
    requires (d in pending <==> d in p.pending) && (d in pending ==> pending[d] == p.pending[d])
    requires (d in store' <==> d in store) && (d in store ==> store'[d] == store[d])
    ensures d !in pending ==> Known(store', after, [], d)
    ensures d in pending ==> Awaited(store', after, pending, d)
  {
    hide Inv, HostsAlive, HoldsSession, AllApart, WorkInv, RecordRight, SavedSessions, OthersStay;
    SameRoom(p.service, code, after, d);
    RecordStays(p.service, code, after, d);
    if d in p.pending {
      assert Awaited(store, p.service, p.pending, d);
    } else {
      assert Known(store, p.service, [], d);
    }
  }

  lemma NoWorkLeft(store: map<RoomCode, Record>, s: Service)
    ensures WorkInv(store, s, []) <==> forall code :: code in store ==> code in s.rooms
  {
  }

  // A Room's new record is on its way.
  lemma SavingKeeps(v: Server, p: Process, o: RoomOutcome, code: RoomCode, newcomer: Option<SessionId>)
    requires ServerInv(v) && v.live == Some(p) && p.work == [] && code !in p.pending
    requires Good(o) && HostsAlive(o.service) && OthersStay(p.service, code, o.service)
    requires o.saved == Some(code) && Tidy(p.service, o, Some(code), newcomer)
    requires newcomer.Some? ==> forall c :: !Claims(v.store, p.pending, c, newcomer.value)
    ensures ServerInv(Begun(v, p, Some(code), o))
  {
    hide Inv, HostsAlive, AggregateValid, HoldsSession, Known, OthersStay, WorkInv, StoreInv, AllApart, Awaited, SavedSessions, Holders, Claims;
    var record := RecordOf(code, o.service.rooms[code], o.service.sessions);
    var pending := p.pending[code := SaveRecord(record)];
    forall d | d in o.service.rooms && d !in pending ensures Known(v.store, o.service, [], d) {
      OtherStays(v.store, p, code, o.service, v.store, pending, d);
    }
    AwaitedAre(v.store, p);
    forall d | d in pending ensures Awaited(v.store, o.service, pending, d) {
      if d == code {
        SavedAwaited(v.store, o, pending, code);
      } else {
        OtherStays(v.store, p, code, o.service, v.store, pending, d);
      }
    }
    NoWorkLeft(v.store, p.service);
    NoWorkLeft(v.store, o.service);
    NewClaims(v.store, p, o, code, newcomer);
    assert Inv(o.service) by {
      GoodIsInv(o);
    }
  }

  lemma SavedAwaited(store: map<RoomCode, Record>, o: RoomOutcome, pending: map<RoomCode, Write>, code: RoomCode)
    requires Good(o) && o.saved == Some(code) && code in pending
    requires pending[code] == SaveRecord(RecordOf(code, o.service.rooms[code], o.service.sessions))
    ensures Awaited(store, o.service, pending, code)
  {
    hide Inv, AggregateValid, SavedSessions;
  }

  // Pending Rooms are live ones.
  lemma AwaitedAre(store: map<RoomCode, Record>, p: Process)
    requires LiveInv(store, p)
    ensures forall code :: code in p.pending ==> code in p.service.rooms
  {
    hide Inv, HostsAlive, AllApart, WorkInv, Known, RecordOf, RecordRight;
    forall code | code in p.pending ensures code in p.service.rooms {
      assert Awaited(store, p.service, p.pending, code);
    }
  }

  lemma NewClaims(store: map<RoomCode, Record>, p: Process, o: RoomOutcome, code: RoomCode, newcomer: Option<SessionId>)
    requires LiveInv(store, p) && p.work == [] && code !in p.pending
    requires o.saved == Some(code) && Tidy(p.service, o, Some(code), newcomer)
    requires newcomer.Some? ==> forall c :: !Claims(store, p.pending, c, newcomer.value)
    ensures AllApart(store, p.pending[code := SaveRecord(RecordOf(code, o.service.rooms[code], o.service.sessions))])
  {
    hide Inv, HostsAlive, HoldsSession, Awaited, WorkInv, SavedSessions;
    var record := RecordOf(code, o.service.rooms[code], o.service.sessions);
    var pending := p.pending[code := SaveRecord(record)];
    forall c, id | Claims(store, pending, c, id) ensures Claims(store, p.pending, c, id) || (c == code && newcomer == Some(id)) {
      if c == code && code in p.service.rooms {
        assert Known(store, p.service, [], code);
      }
    }
    hide Claims;
    forall c, d, id | Claims(store, pending, c, id) && Claims(store, pending, d, id) ensures c == d {
    }
  }

  // A Room's record is about to go.
  lemma ClosingKeeps(v: Server, p: Process, code: RoomCode)
    requires ServerInv(v) && v.live == Some(p) && p.work == [] && code !in p.pending && code in p.service.rooms
    ensures ServerInv(v.(live := Some(p.(pending := p.pending[code := RemoveRecord]))))
  {
    hide Inv, HostsAlive, HoldsSession, WorkInv, StoreInv, AllApart, RecordRight, SavedSessions, Claims, AggregateValid;
    var pending := p.pending[code := RemoveRecord];
    forall d | d in pending ensures Awaited(v.store, p.service, pending, d) {
      if d == code {
        assert Known(v.store, p.service, [], code);
      } else {
        assert Awaited(v.store, p.service, p.pending, d);
      }
    }
    ClosingClaims(v.store, p.pending, code);
    FewerClaims(v.store, p.pending, v.store, pending);
  }

  lemma ClosingClaims(store: map<RoomCode, Record>, pending: map<RoomCode, Write>, code: RoomCode)
    ensures forall c, id :: Claims(store, pending[code := RemoveRecord], c, id) ==> Claims(store, pending, c, id)
  {
    hide HoldsSession;
  }

  lemma BeginKeeps(v: Server, step: Step, t: Clock)
    requires ServerInv(v) && MayBegin(v, step)
    ensures ServerInv(Next(v, Begin(step, t)))
  {
    hide ServerInv, Inv, HostsAlive, HoldsSession, AggregateValid, Take, Possible, Good, OthersStay, Tidy, Concerned, Begun, Claims;
    var p := v.live.value;
    LiveHolds(v, p);
    var o := Take(p.service, step, t);
    StepIsGood(p.service, step, t);
    HostStaysAlive(p.service, step, t);
    StepIsTidy(p.service, step, t);
    TidyCode(p.service, o, Concerned(p.service, step), Newcomer(step));
    if o.saved.Some? {
      OneRoomMoves(p.service, step, t, o.saved.value);
      SavingKeeps(v, p, o, o.saved.value, Newcomer(step));
    } else if o.service != p.service {
      var code := if Concerned(p.service, step).Some? then Concerned(p.service, step).value else "";
      OneRoomMoves(p.service, step, t, code);
      OnlyCloses(p.service, o, Concerned(p.service, step), code, Newcomer(step));
      ConcernedMoves(p.service, step, t);
      ClosingKeeps(v, p, code);
    }
    BegunIs(v, p, Concerned(p.service, step), o);
  }

  lemma LiveHolds(v: Server, p: Process)
    requires ServerInv(v) && v.live == Some(p)
    ensures Inv(p.service) && HostsAlive(p.service) && LiveInv(v.store, p)
  {
    hide Inv, HostsAlive, Known, Awaited, WorkInv, AllApart, StoreInv, AggregateValid;
  }

  lemma BegunIs(v: Server, p: Process, concerned: Option<RoomCode>, o: RoomOutcome)
    requires v.live == Some(p)
    ensures o.saved.None? && o.service == p.service ==> Begun(v, p, concerned, o) == v
    ensures o.saved.None? && o.service != p.service && concerned.Some? ==>
              Begun(v, p, concerned, o) == v.(live := Some(p.(pending := p.pending[concerned.value := RemoveRecord])))
    ensures o.saved.Some? && o.saved.value in o.service.rooms ==> Begun(v, p, concerned, o) == Begun(v, p, o.saved, o)
  {
  }

  // What a step that saves nothing removes is the Room it is about.
  lemma OnlyCloses(s: Service, o: RoomOutcome, concerned: Option<RoomCode>, code: RoomCode, newcomer: Option<SessionId>)
    requires Tidy(s, o, concerned, newcomer) && o.saved.None? && o.service != s && OthersStay(s, code, o.service)
    ensures code in s.rooms && o.service == WithoutRoom(s, code)
  {
    hide Holders, Isolated;
    var c :| c in s.rooms && o.service == WithoutRoom(s, c);
    assert c !in o.service.rooms;
  }

  lemma ConcernedMoves(s: Service, step: Step, t: Clock)
    requires Inv(s) && Possible(s, step) && Take(s, step, t).service != s && Take(s, step, t).saved.None?
    requires Tidy(s, Take(s, step, t), Concerned(s, step), Newcomer(step))
    ensures Concerned(s, step).Some?
  {
    hide Inv, OthersStay, Take, Possible, Concerned, Tidy, WithoutRoom;
    if Concerned(s, step).None? {
      var o := Take(s, step, t);
      OneRoomMoves(s, step, t, "a");
      OneRoomMoves(s, step, t, "b");
      OnlyCloses(s, o, None, "a", Newcomer(step));
      OneRoomGone(s, "a");
      OtherRoomStays(s, "b", o.service, "a");
    }
  }

  lemma OneRoomGone(s: Service, code: RoomCode)
    ensures code in s.rooms ==> code !in WithoutRoom(s, code).rooms
  {
  }

  lemma OtherRoomStays(s: Service, code: RoomCode, after: Service, d: RoomCode)
    requires OthersStay(s, code, after) && d != code
    ensures d in after.rooms <==> d in s.rooms
  {
    hide Isolated;
  }

  lemma FinishKeeps(v: Server, p: Process, code: RoomCode)
    requires ServerInv(v) && v.live == Some(p) && code in p.pending
    ensures ServerInv(Finished(v, p, code))
  {
    hide Inv, HostsAlive, AggregateValid, HoldsSession, Known, OthersStay, WorkInv, StoreInv, AllApart, Awaited, Claims, WithoutRoom, Effected;
    var store, pending := Effected(v.store, p.pending, {code}), p.pending - {code};
    PendingRight(v, p);
    EffectedKeeps(v.store, p.pending, {code});
    EffectedClaims(v.store, p.pending, {code}, pending);
    FewerClaims(v.store, p.pending, store, pending);
    AwaitedAre(v.store, p);
    EffectedIs(v.store, p.pending, code);
    var after := Finished(v, p, code).live.value.service;
    FinishedService(p, code, after);
    forall d | d in after.rooms && d !in pending ensures Known(store, after, [], d) {
      if d == code {
        FinishedKnown(v.store, p, code, store);
      } else {
        OtherStays(v.store, p, code, after, store, pending, d);
      }
    }
    forall d | d in pending ensures Awaited(store, after, pending, d) {
      OtherRoomStays(p.service, code, after, d);
      OtherStays(v.store, p, code, after, store, pending, d);
    }
    NoWorkLeft(v.store, p.service);
    NoWorkLeft(store, after);
    forall c | c in store ensures c in after.rooms {
      if c != code {
        OtherRoomStays(p.service, code, after, c);
      }
    }
  }

  lemma EffectedIs(store: map<RoomCode, Record>, pending: map<RoomCode, Write>, code: RoomCode)
    requires code in pending
    ensures Effected(store, pending, {code}) ==
              match pending[code]
              case SaveRecord(record) => store[code := record]
              case RemoveRecord => store - {code}
  {
  }

  lemma FinishedService(p: Process, code: RoomCode, after: Service)
    requires Inv(p.service) && HostsAlive(p.service) && code in p.service.rooms && code in p.pending
    requires after == if p.pending[code].RemoveRecord? then WithoutRoom(p.service, code) else p.service
    ensures Inv(after) && HostsAlive(after) && OthersStay(p.service, code, after)
    ensures code in after.rooms ==> after == p.service && p.pending[code].SaveRecord?
  {
    hide Inv, HostAlive, HoldsSession, OthersStay, Isolated, SameEntry;
    NothingStays(p.service, code);
    if p.pending[code].RemoveRecord? {
      ClosedIsGood(p.service, code);
      ClosedStays(p.service, code);
      assert code !in WithoutRoom(p.service, code).rooms;
      forall d | d in after.rooms ensures HostAlive(after.rooms[d], after.sessions) {
        ClosedElsewhere(p.service, code, after, d);
        SeatedHost(p.service, d, after);
      }
    }
  }

  lemma ClosedElsewhere(s: Service, code: RoomCode, after: Service, d: RoomCode)
    requires OthersStay(s, code, after) && d != code && d in after.rooms
    ensures d in s.rooms && after.rooms[d] == s.rooms[d]
    ensures forall id :: HoldsSession(s.rooms[d].seats, id) ==> SameEntry(s.sessions, after.sessions, id)
  {
    hide HoldsSession, SameEntry;
  }

  lemma FinishedKnown(store: map<RoomCode, Record>, p: Process, code: RoomCode, store': map<RoomCode, Record>)
    requires LiveInv(store, p) && code in p.pending && p.pending[code].SaveRecord? && store' == store[code := p.pending[code].record]
    ensures code in p.service.rooms && Known(store', p.service, [], code)
  {
    hide Inv, HostsAlive, AllApart, WorkInv, HoldsSession, RecordRight, SavedSessions;
    assert Awaited(store, p.service, p.pending, code);
  }

  // Every event keeps the invariant.

  lemma TidyCode(s: Service, o: RoomOutcome, concerned: Option<RoomCode>, newcomer: Option<SessionId>)
    requires Tidy(s, o, concerned, newcomer)
    ensures o.saved.Some? ==> o.saved == concerned
    ensures Tidy(s, o, o.saved, newcomer)
  {
    hide Holders, WithoutRoom;
  }

  lemma LapseKeeps(v: Server, p: Process, t: Clock, fate: Fate)
    requires hide *; ServerInv(v) && v.live == Some(p) && p.work != [] && p.work[0].Lapse?
    ensures ServerInv(Proceeded(v, p, t, fate))
  {
    hide Inv, HostsAlive, HoldsSession, AggregateValid, Take, StoreInv, Known, WorkInv, Good, OthersStay, Tidy, Ended;
    var step := ExpireStep(p.work[0].id);
    var o := Take(p.service, step, t);
    StepIsGood(p.service, step, t);
    HostStaysAlive(p.service, step, t);
    StepIsTidy(p.service, step, t);
    var code := if Concerned(p.service, step).Some? then Concerned(p.service, step).value else "";
    TidyCode(p.service, o, Concerned(p.service, step), None);
    OneRoomMoves(p.service, step, t, code);
    EndedKeeps(v, p, o, code, fate);
  }

  lemma SettledIsGood(s: Service, code: RoomCode, t: Clock)
    requires Inv(s) && HostsAlive(s)
    ensures var o := Settled(s, code, t);
            Good(o) && HostsAlive(o.service) && OthersStay(s, code, o.service) && Tidy(s, o, o.saved, None)
  {
    hide Inv, HoldsSession, Good, OthersStay, Tidy, Save, FirstConnected;
    RefusedIsTidy(s, None, None);
    NothingStays(s, code);
    UnchangedIsGood(s);
    if code in s.rooms {
      RoomFacts(s, code);
      SaveIsGood(s, code, s.rooms[code], s.sessions, t);
      SavedStays(s, code, s.rooms[code], s.sessions, t);
      SameSeatsAreTidy(s, t);
      SettledAlive(s, code, t);
    }
  }

  lemma SettledAlive(s: Service, code: RoomCode, t: Clock)
    requires HostsAlive(s) && code in s.rooms
    ensures HostsAlive(Save(s, code, s.rooms[code], s.sessions, t).service)
    ensures Save(s, code, s.rooms[code], s.sessions, t).saved == Some(code)
  {
    hide BeforeSave, FirstConnected;
    FacesKept(t);
  }

  lemma SettleKeeps(v: Server, p: Process, t: Clock, fate: Fate)
    requires hide *; ServerInv(v) && v.live == Some(p) && p.work != [] && p.work[0].Settle?
    ensures ServerInv(Proceeded(v, p, t, fate))
  {
    hide Inv, HostsAlive, HoldsSession, AggregateValid, Take, StoreInv, Known, WorkInv, Good, OthersStay, Tidy, Ended, BeforeSave;
    var code := p.work[0].code;
    SettledIsGood(p.service, code, t);
    EndedKeeps(v, p, Settled(p.service, code, t), code, fate);
  }

  lemma BootKeeps(v: Server, order: seq<RoomCode>)
    requires ServerInv(v)
    ensures ServerInv(Next(v, Boot(order)))
  {
    hide AggregateValid, HoldsSession, StoreInv, AllApart, Known, Awaited;
    NothingPending(v.store);
    if v.live.None? && Lists(order, v.store) {
      var work := seq(|order|, k requires 0 <= k < |order| => Load(order[k]));
      assert forall k :: 0 <= k < |order| ==> work[k] == Load(order[k]);
      forall c | c in v.store ensures Load(c) in work {
        var k :| 0 <= k < |order| && order[k] == c;
        assert work[k] == Load(c);
      }
    }
  }

  lemma NextKeeps(v: Server, e: Event)
    requires ServerInv(v)
    ensures ServerInv(Next(v, e))
  {
    hide ServerInv, Proceeded, MayBegin, Take, Begun, Finished, Crashed, Lists, Concerned;
    match e {
      case Begin(step, t) => if MayBegin(v, step) { BeginKeeps(v, step, t); }
      case Finish(code) => if v.live.Some? && code in v.live.value.pending { FinishKeeps(v, v.live.value, code); }
      case Proceed(t, fate) =>
        if v.live.Some? && v.live.value.work != [] {
          ProceedKeeps(v, v.live.value, t, fate);
        }
      case Crash(done) => CrashKeeps(v, done);
      case Boot(order) => BootKeeps(v, order);
    }
  }

  lemma ProceedKeeps(v: Server, p: Process, t: Clock, fate: Fate)
    requires hide *; ServerInv(v) && v.live == Some(p) && p.work != []
    ensures ServerInv(Proceeded(v, p, t, fate))
  {
    hide ServerInv, Take, Loaded, Lapsed, Settled, Possible, Clashes;
    match p.work[0] {
      case Load(code) =>
        RecordIsFresh(v, p);
        if Lapsed(v.store[code], t) {
          LapsedKeeps(v, p, t, fate);
        } else {
          LoadKeeps(v, p, t, fate);
        }
      case Lapse(_) => LapseKeeps(v, p, t, fate);
      case Settle(_) => SettleKeeps(v, p, t, fate);
    }
  }

  // Whole runs of the server, from an empty repository: operations under any clock whose writes
  // overlap, crashes that leave any of the writes done, restarts.

  lemma {:induction false} RunKeeps(events: seq<Event>)
    ensures ServerInv(Run(events))
  {
    hide ServerInv, Next;
    if events == [] {
      NewServerIsSound();
    } else {
      RunKeeps(events[..|events| - 1]);
      NextKeeps(Run(events[..|events| - 1]), events[|events| - 1]);
    }
  }

  lemma NewServerIsSound()
    ensures ServerInv(NEW_SERVER)
  {
  }

  // Every record ever handed to the repository, and every record it holds, satisfies the
  // aggregate predicate, and no session sits in two stored Rooms.
  lemma EverySavedRecordIsValid(events: seq<Event>)
    ensures var v := Run(events);
            && (forall k :: 0 <= k < |v.written| ==> AggregateValid(v.written[k]))
            && (forall code :: code in v.store ==> v.store[code].roomCode == code && AggregateValid(v.store[code]))
            && Apart(v.store)
  {
    hide AggregateValid, Apart, LiveInv, Run;
    RunKeeps(events);
    var v := Run(events);
    forall code | code in v.store ensures v.store[code].roomCode == code && AggregateValid(v.store[code]) {
      assert RecordRight(code, v.store[code]);
    }
  }

  // Once recovery is done the repository has no Room that is not live, and of every Room without a
  // pending write exactly its state in memory; so between operations it has exactly the live Rooms.
  lemma RepositoryIsCurrent(events: seq<Event>)
    requires Run(events).live.Some? && Run(events).live.value.work == []
    ensures var v, p := Run(events), Run(events).live.value;
            && v.store.Keys <= p.service.rooms.Keys && p.pending.Keys <= p.service.rooms.Keys
            && (forall code :: code in p.service.rooms && code !in p.pending ==>
                  code in v.store && v.store[code] == RecordOf(code, p.service.rooms[code], p.service.sessions))
            && (p.pending == map[] ==> v.store.Keys == p.service.rooms.Keys)
  {
    hide AggregateValid, Run, Inv, HostsAlive, StoreInv, RecordOf, HoldsSession, Awaited, WorkInv, AllApart;
    RunKeeps(events);
    var v, p := Run(events), Run(events).live.value;
    forall code | code in p.service.rooms && code !in p.pending
      ensures code in v.store && v.store[code] == RecordOf(code, p.service.rooms[code], p.service.sessions)
    {
      assert Known(v.store, p.service, [], code);
    }
    NoWorkLeft(v.store, p.service);
    AwaitedAre(v.store, p);
  }

  // Whoever is connected in a Room finds its host's session alive.
  lemma ConnectedFindHosts(events: seq<Event>)
    ensures Run(events).live.Some? ==> HostsAlive(Run(events).live.value.service)
  {
    hide AggregateValid, Run, Inv, HostsAlive, StoreInv, Known, WorkInv;
    RunKeeps(events);
  }

  // The repository never holds more Rooms than recovery accepts.

  lemma NewRoomsFit(s: Service, step: Step, t: Clock)
    requires hide *; Possible(s, step) && !step.RecoverStep?
    ensures var o := Take(s, step, t);
            o.saved.Some? && o.saved.value !in s.rooms ==> |s.rooms| < MAX_ROOMS
  {
    hide Tidy, Resume, MarkDisconnected, SetReady, SetAiSeat, RequestSnapshot, Start, ReplaceExpired, Expire, Vacated, WithoutRoom,
      BeforeSave, FreshSession, PresenceLifecycle, Fits, CloseGame, Leave, FirstEmpty, Touched, AfterDeed;
    StepIsTidy(s, step, t);
    TidyCode(s, Take(s, step, t), Concerned(s, step), Newcomer(step));
  }

  lemma FewerFit<T, U>(store: map<RoomCode, T>, store': map<RoomCode, U>)
    requires store'.Keys <= store.Keys
    ensures |store'| <= |store|
  {
    assert |store'.Keys| + |store.Keys - store'.Keys| == |store.Keys|;
  }

  lemma OneMoreFits(rooms: map<RoomCode, Room>, rooms': map<RoomCode, Room>, code: RoomCode)
    requires rooms'.Keys == rooms.Keys + {code} && |rooms| <= MAX_ROOMS && (code !in rooms ==> |rooms| < MAX_ROOMS)
    ensures |rooms'| <= MAX_ROOMS
  {
    assert |rooms'.Keys| <= |rooms.Keys| + 1;
    assert code in rooms ==> rooms'.Keys == rooms.Keys;
  }

  predicate WithinMaximum(v: Server) {
    |v.store| <= MAX_ROOMS && (v.live.Some? ==> |v.live.value.service.rooms| <= MAX_ROOMS)
  }

  lemma BeginFits(v: Server, step: Step, t: Clock)
    requires WithinMaximum(v) && MayBegin(v, step)
    ensures WithinMaximum(Next(v, Begin(step, t)))
  {
    hide Take, Possible, RecordOf, Claims, Concerned, Holders;
    var p := v.live.value;
    var o := Take(p.service, step, t);
    NewRoomsFit(p.service, step, t);
    StepIsTidy(p.service, step, t);
    if o.saved.Some? {
      OneMoreFits(p.service.rooms, o.service.rooms, o.saved.value);
    }
  }

  // Whatever writes are done, the repository has only live Rooms.
  lemma EffectedFits(v: Server, p: Process, done: set<RoomCode>)
    requires ServerInv(v) && v.live == Some(p) && WithinMaximum(v)
    ensures |Effected(v.store, p.pending, done)| <= MAX_ROOMS
  {
    hide Inv, HostsAlive, StoreInv, Known, Awaited, WorkInv, AllApart, AggregateValid;
    var store := Effected(v.store, p.pending, done);
    if p.work == [] {
      NoWorkLeft(v.store, p.service);
      AwaitedAre(v.store, p);
      FewerFit(p.service.rooms, store);
    } else {
      FewerFit(v.store, store);
    }
  }

  lemma FinishFits(v: Server, p: Process, code: RoomCode)
    requires ServerInv(v) && v.live == Some(p) && WithinMaximum(v) && code in p.pending
    ensures WithinMaximum(Finished(v, p, code))
  {
    hide ServerInv, Effected;
    EffectedFits(v, p, {code});
    FewerFit(p.service.rooms, Finished(v, p, code).live.value.service.rooms);
  }

  // While recovery runs, every live Room is stored.
  lemma LiveFits(v: Server)
    requires ServerInv(v) && |v.store| <= MAX_ROOMS && (v.live.Some? ==> v.live.value.pending == map[])
    ensures WithinMaximum(v)
  {
    hide Inv, HostsAlive, StoreInv, WorkInv, AllApart, AggregateValid, RecordOf, HoldsSession;
    if v.live.Some? {
      var p := v.live.value;
      forall code | code in p.service.rooms ensures code in v.store {
        assert Known(v.store, p.service, p.work, code);
      }
      FewerFit(v.store, p.service.rooms);
    }
  }

  lemma EndedFits(v: Server, p: Process, o: RoomOutcome, work: seq<Work>, fate: Fate)
    requires o.saved.Some? ==> o.saved.value in v.store
    ensures |Ended(v, p.service, o, work, fate).store| <= |v.store|
  {
    hide RecordOf;
    FewerFit(v.store, StoreAfter(v.store, p.service, o));
  }

  lemma ProceedFits(v: Server, p: Process, t: Clock, fate: Fate)
    requires hide *; ServerInv(v) && v.live == Some(p) && p.work != []
    ensures |Proceeded(v, p, t, fate).store| <= |v.store|
  {
    hide Inv, HostsAlive, HoldsSession, AggregateValid, Take, StoreInv, RecordOf, RecoverRoom, Lapsed, Clashes, Tidy, Ended, WorkInv,
      BeforeSave;
    match p.work[0] {
      case Load(code) =>
        RecordIsFresh(v, p);
        var record := v.store[code];
        FewerFit(v.store, v.store - {code});
        if !Lapsed(record, t) {
          RecoveredHolders(p.service, record, t);
          var o := RecoverRoom(p.service, record, t);
          EndedFits(v, p, o.(saved := if record.game.None? then None else o.saved), Lapses(record.sessions) + [Settle(code)] + p.work[1..], fate);
        }
      case Lapse(id) =>
        var step := ExpireStep(id);
        StepIsTidy(p.service, step, t);
        TidyCode(p.service, Take(p.service, step, t), Concerned(p.service, step), None);
        if IsMember(p.service, id) {
          assert Known(v.store, p.service, p.work, p.service.sessions[id].roomCode);
        }
        EndedFits(v, p, Take(p.service, step, t), p.work[1..], fate);
      case Settle(code) =>
        if code in p.service.rooms {
          assert Known(v.store, p.service, p.work, code);
        }
        EndedFits(v, p, Settled(p.service, code, t), p.work[1..], fate);
    }
  }

  lemma {:induction false} RepositoryFits(events: seq<Event>)
    ensures ServerInv(Run(events)) && WithinMaximum(Run(events))
  {
    hide ServerInv, Next;
    RunKeeps(events);
    if events != [] {
      var before, e := Run(events[..|events| - 1]), events[|events| - 1];
      RepositoryFits(events[..|events| - 1]);
      NextFits(before, e);
    }
  }

  lemma NextFits(v: Server, e: Event)
    requires ServerInv(v) && WithinMaximum(v)
    ensures WithinMaximum(Next(v, e))
  {
    hide ServerInv, Proceeded, MayBegin, Take, Begun, Finished, Effected, Lists, Concerned, WithinMaximum;
    NextKeeps(v, e);
    match e {
      case Begin(step, t) => if MayBegin(v, step) { BeginFits(v, step, t); }
      case Finish(code) => if v.live.Some? && code in v.live.value.pending { FinishFits(v, v.live.value, code); }
      case Proceed(t, fate) =>
        if v.live.Some? && v.live.value.work != [] {
          ProceedFits(v, v.live.value, t, fate);
          ProceedAlone(v, v.live.value, t, fate);
          StoreFits(v);
          LiveFits(Next(v, e));
        }
      case Crash(done) =>
        if v.live.Some? {
          EffectedFits(v, v.live.value, done);
        }
        CrashFits(v, done);
      case Boot(_) => BootFits(v, e);
    }
  }

  lemma StoreFits(v: Server)
    requires WithinMaximum(v)
    ensures |v.store| <= MAX_ROOMS
  {
  }

  lemma CrashFits(v: Server, done: set<RoomCode>)
    requires WithinMaximum(v) && (v.live.Some? ==> |Effected(v.store, v.live.value.pending, done)| <= MAX_ROOMS)
    ensures WithinMaximum(Crashed(v, done))
  {
    hide Effected;
  }

  lemma BootFits(v: Server, e: Event)
    requires e.Boot? && WithinMaximum(v)
    ensures WithinMaximum(Next(v, e))
  {
  }

  // Recovery has no other writes beside its own.
  lemma ProceedAlone(v: Server, p: Process, t: Clock, fate: Fate)
    requires ServerInv(v) && v.live == Some(p) && p.work != []
    ensures Proceeded(v, p, t, fate).live.Some? ==> Proceeded(v, p, t, fate).live.value.pending == map[]
  {
    hide Inv, HostsAlive, StoreInv, WorkInv, AllApart, Known, Awaited, Take, RecoverRoom, Lapsed, Clashes, StoreAfter, Settled, Possible,
      AggregateValid;
    if p.work[0].Load? {
      RecordIsFresh(v, p);
    }
  }

  // Recovery never refuses what the server saved: there are not too many records, and it never
  // finds a session it already knows.
  lemma RecoveryNeverRefuses(events: seq<Event>)
    ensures var v := Run(events);
            && |v.store| <= MAX_ROOMS && (v.live.Some? ==> |v.live.value.service.rooms| <= MAX_ROOMS)
            && (v.live.Some? && v.live.value.work != [] && v.live.value.work[0].Load? ==>
                  var code := v.live.value.work[0].code;
                  code in v.store && !Clashes(v.live.value.service, v.store[code]))
  {
    hide ServerInv, Run, Clashes, Possible;
    RepositoryFits(events);
    var v := Run(events);
    if v.live.Some? && v.live.value.work != [] && v.live.value.work[0].Load? {
      RecordIsFresh(v, v.live.value);
    }
  }

  // What is left of a deadline, or the grace after a restart.
  function TimeLeft(saved: SavedSession, t: Clock): int {
    if saved.deadline.None? then t.now + t.restartGrace else saved.deadline.value
  }

  // A lobby comes back until its idle deadline and a game until it is to be given up; the record of
  // any other Room is dropped.
  lemma RoomsComeBackInTime(events: seq<Event>, code: RoomCode, t: Clock)
    requires Run(events).live.Some? && Run(events).live.value.work != [] && Run(events).live.value.work[0] == Load(code)
    requires code in Run(events).store
    ensures var record := Run(events).store[code];
            var v := Next(Run(events), Proceed(t, Completes));
            && v.live.Some?
            && (code in v.live.value.service.rooms <==>
                  && (record.game.None? ==> t.now < record.idleDeadline)
                  && (record.abandonedDeadline.Some? ==> t.now < record.abandonedDeadline.value))
            && (code !in v.live.value.service.rooms ==> v.store == Run(events).store - {code})
  {
    hide ServerInv, Run, Clashes, Possible, RecoverRoom, Lists, RecordOf;
    RepositoryFits(events);
    var v := Run(events);
    RecordIsFresh(v, v.live.value);
    RecoveredIsThere(v.live.value.service, v.store[code], t);
    LoadedIsNew(v, v.live.value);
  }

  lemma RecoveredIsThere(s: Service, record: Record, t: Clock)
    ensures !Lapsed(record, t) ==> record.roomCode in RecoverRoom(s, record, t).service.rooms
  {
    hide RecoveredSeats, RecoveredSessions, SyncedIfPlaying, BeforeSave;
  }

  lemma LoadedIsNew(v: Server, p: Process)
    requires ServerInv(v) && v.live == Some(p) && p.work != [] && p.work[0].Load?
    ensures p.work[0].code !in p.service.rooms
  {
    hide Inv, HostsAlive, StoreInv, Known, Awaited, AllApart;
  }

  // What recovery brings back is what was saved: the Room with its revision, host, occupants and
  // game, and each stored session with its seat, its token and what is left of its time, though
  // everybody must reconnect.
  lemma RecoveredAsSaved(events: seq<Event>, code: RoomCode, t: Clock)
    requires Run(events).live.Some? && Run(events).live.value.work != [] && Run(events).live.value.work[0] == Load(code)
    requires code in Run(events).store && !Lapsed(Run(events).store[code], t)
    ensures var record := Run(events).store[code];
            var v := Next(Run(events), Proceed(t, Completes));
            && v.live.Some? && code in v.live.value.service.rooms
            && var room, sessions := v.live.value.service.rooms[code], v.live.value.service.sessions;
            && (room.revision, room.host, room.idleDeadline) == (record.revision, record.host, record.idleDeadline)
            && SameOccupants(record.seats, room.seats)
            && (forall i :: 0 <= i < |room.seats| && room.seats[i].HumanSeat? ==> room.seats[i].connection != Connected)
            && (if record.game.None? then room.game.None?
                else room.game == Some(record.game.value.(
                       disconnectedSeats := GoneSeats(room.seats, 0), abandonedDeadline := room.abandonedDeadline)))
            && (forall k :: 0 <= k < |record.sessions| ==>
                  var saved := record.sessions[k];
                  && saved.session in sessions
                  && sessions[saved.session] == Stored(code, saved.seat, saved.tokenDigest, Some(TimeLeft(saved, t))))
  {
    hide ServerInv, Run, Clashes, Possible, Lapsed, RecoverRoom, Lists, RecordOf;
    RepositoryFits(events);
    var v := Run(events);
    RecordIsFresh(v, v.live.value);
    RecoveredRoom(v.live.value.service, v.store[code], t);
  }

  lemma RecoveredRoom(s: Service, record: Record, t: Clock)
    requires hide *; Possible(s, RecoverStep(record)) && !Lapsed(record, t)
    ensures var after := RecoverRoom(s, record, t).service;
            && record.roomCode in after.rooms
            && var room, sessions := after.rooms[record.roomCode], after.sessions;
            && (room.revision, room.host, room.idleDeadline) == (record.revision, record.host, record.idleDeadline)
            && SameOccupants(record.seats, room.seats)
            && (forall i :: 0 <= i < |room.seats| && room.seats[i].HumanSeat? ==> room.seats[i].connection != Connected)
            && (if record.game.None? then room.game.None?
                else room.game == Some(record.game.value.(
                       disconnectedSeats := GoneSeats(room.seats, 0), abandonedDeadline := room.abandonedDeadline)))
            && (forall k :: 0 <= k < |record.sessions| ==>
                  var saved := record.sessions[k];
                  && saved.session in sessions
                  && sessions[saved.session] == Stored(record.roomCode, saved.seat, saved.tokenDigest, Some(TimeLeft(saved, t))))
  {
    hide FindSaved, RecoveredSessions, SameOccupants, FreshSession, GoneSeats, RecoveredSeats, AggregateValid;
    RecoveredOccupants(s, record, t);
    forall k | 0 <= k < |record.sessions|
      ensures var saved, sessions := record.sessions[k], RecoveredSessions(s, record, t);
              && saved.session in sessions
              && sessions[saved.session] == Stored(record.roomCode, saved.seat, saved.tokenDigest, Some(TimeLeft(saved, t)))
    {
      SessionComesBack(s, record, t, k);
    }
  }

  lemma RecoveredOccupants(s: Service, record: Record, t: Clock)
    requires Possible(s, RecoverStep(record))
    ensures var seats := RecoveredSeats(record.seats, record.sessions, t);
            && SameOccupants(record.seats, seats)
            && forall i :: 0 <= i < |seats| && seats[i].HumanSeat? ==> seats[i].connection != Connected
  {
    hide FindSaved, RecoveredSessions, FreshSession, GameValid, RecordSeatValid;
    forall i: nat | i < SEATS && record.seats[i].HumanSeat?
      ensures SameOccupant(record.seats[i], RecoveredSeat(record.seats[i], record.sessions, t))
      ensures RecoveredSeat(record.seats[i], record.sessions, t).connection != Connected
    {
      assert RecordSeatValid(record, i);
      FreshIsUnknown(s, record.seats[i].session);
      RecoveredMatches(s, record, t, i);
    }
  }

  lemma SessionComesBack(s: Service, record: Record, t: Clock, k: nat)
    requires Possible(s, RecoverStep(record)) && k < |record.sessions|
    ensures var saved, sessions := record.sessions[k], RecoveredSessions(s, record, t);
            && saved.session in sessions
            && sessions[saved.session] == Stored(record.roomCode, saved.seat, saved.tokenDigest, Some(TimeLeft(saved, t)))
  {
    hide RecoveredSessions, FreshSession, GameValid, RecordSeatValid;
    var saved := record.sessions[k];
    assert record.seats[saved.seat].HumanSeat? && record.seats[saved.seat].session == saved.session;
    FreshIsUnknown(s, saved.session);
    FindSavedIs(record.sessions, saved.session);
    hide FindSaved;
    var found := FindSaved(record.sessions, saved.session).value;
    var j :| 0 <= j < |record.sessions| && record.sessions[j] == found;
    assert j == k;
    StoredWhenRecovered(s, record, t, saved.session);
  }
}
