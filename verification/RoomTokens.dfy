// Who can take a seat again: over runs of the server, with its restarts, only the token that was
// issued with the seat.

module RoomTokens {
  import opened Board
  import opened Sessions
  import opened Rooms
  import opened RoomSteps
  import opened RoomSafety
  import opened RoomEffects
  import opened RoomRules
  import opened RoomStore

  // The operation that let the session into the Room, and gave it its token.
  predicate Admits(e: Event, code: RoomCode, id: SessionId, digest: string) {
    && e.Begin? && (e.step.CreateStep? || e.step.JoinStep?)
    && e.step.code == code && e.step.id == id && e.step.digest == digest
  }

  ghost predicate Issued(events: seq<Event>, code: RoomCode, id: SessionId, digest: string) {
    exists k :: 0 <= k < |events| && Admits(events[k], code, id, digest)
  }

  ghost predicate SessionsIssued(events: seq<Event>, sessions: map<SessionId, Stored>) {
    forall id :: id in sessions ==> Issued(events, sessions[id].roomCode, id, sessions[id].tokenDigest)
  }

  ghost predicate RecordIssued(events: seq<Event>, code: RoomCode, record: Record) {
    forall k :: 0 <= k < |record.sessions| ==> Issued(events, code, record.sessions[k].session, record.sessions[k].tokenDigest)
  }

  ghost predicate StoreIssued(events: seq<Event>, store: map<RoomCode, Record>) {
    forall code :: code in store ==> RecordIssued(events, code, store[code])
  }

  ghost predicate PendingIssued(events: seq<Event>, pending: map<RoomCode, Write>) {
    forall code :: code in pending && pending[code].SaveRecord? ==> RecordIssued(events, code, pending[code].record)
  }

  // Every token in memory, in the repository or on its way there was issued to its session.
  ghost predicate TokensInv(events: seq<Event>, v: Server) {
    && StoreIssued(events, v.store)
    && (v.live.Some? ==> SessionsIssued(events, v.live.value.service.sessions) && PendingIssued(events, v.live.value.pending))
  }

  lemma IssuedGrows(events: seq<Event>, e: Event)
    ensures forall code, id, digest :: Issued(events, code, id, digest) ==> Issued(events + [e], code, id, digest)
  {
    forall code, id, digest | Issued(events, code, id, digest) ensures Issued(events + [e], code, id, digest) {
      var k :| 0 <= k < |events| && Admits(events[k], code, id, digest);
      assert (events + [e])[k] == events[k];
    }
  }

  lemma TokensStay(events: seq<Event>, e: Event, v: Server)
    requires TokensInv(events, v)
    ensures TokensInv(events + [e], v)
  {
    hide Issued;
    IssuedGrows(events, e);
  }

  // A record has the tokens of the sessions in memory.

  predicate HasTokenOf(seats: seq<Seat>, sessions: map<SessionId, Stored>, saved: SavedSession) {
    && HoldsSession(seats, saved.session) && saved.session in sessions
    && saved.tokenDigest == sessions[saved.session].tokenDigest
  }

  lemma {:induction false} SavedTokens(seats: seq<Seat>, sessions: map<SessionId, Stored>, i: nat)
    requires i <= |seats|
    ensures forall saved :: saved in SavedSessions(seats, sessions, i) ==> HasTokenOf(seats, sessions, saved)
    decreases |seats| - i
  {
    if i < |seats| {
      SavedTokens(seats, sessions, i + 1);
      SavedUnfold(seats, sessions, i);
      var first := SavedAt(seats, sessions, i);
      if seats[i].HumanSeat? {
        SeatIsHeld(seats, i);
      }
      hide SavedSessions, HoldsSession;
      assert forall saved :: saved in first ==> HasTokenOf(seats, sessions, saved);
    }
  }

  lemma RecordOfIssued(events: seq<Event>, s: Service, code: RoomCode)
    requires hide *; Inv(s) && code in s.rooms && SessionsIssued(events, s.sessions)
    ensures RecordIssued(events, code, RecordOf(code, s.rooms[code], s.sessions))
  {
    hide Inv, HoldsSession, Issued;
    var record := RecordOf(code, s.rooms[code], s.sessions);
    SavedTokens(s.rooms[code].seats, s.sessions, 0);
    forall k | 0 <= k < |record.sessions| ensures Issued(events, code, record.sessions[k].session, record.sessions[k].tokenDigest) {
      var saved := record.sessions[k];
      assert saved in record.sessions;
      OwnSession(s, saved.session, code);
    }
  }

  // An operation gives a token to nobody but its newcomer, and changes none.
  ghost predicate TokensKept(s: Service, step: Step, after: Service) {
    forall id :: id in after.sessions ==>
      || (id in s.sessions && after.sessions[id].roomCode == s.sessions[id].roomCode
          && after.sessions[id].tokenDigest == s.sessions[id].tokenDigest)
      || (Newcomer(step) == Some(id) && after.sessions[id].roomCode == step.code && after.sessions[id].tokenDigest == step.digest)
  }

  lemma DoesKeepTokens(s: Service, step: Step, t: Clock, after: Service)
    requires hide *; Inv(s) && IsGranted(s, step, t) && !step.RecoverStep? && Does(s, step, t, after)
    ensures TokensKept(s, step, after)
  {
    hide Inv, Shows, Renews, HostPasses, MayDecide, IsFirstConnected, IsConnected, IsReadySeat, HasTwoHumans;
  }

  lemma StepKeepsTokens(s: Service, step: Step, t: Clock)
    requires hide *; Inv(s) && Possible(s, step) && !step.RecoverStep?
    ensures TokensKept(s, step, Take(s, step, t).service)
  {
    hide Inv, Possible, Take, IsGranted, Does, HasToken;
    GrantedExactly(s, step, t);
    if IsGranted(s, step, t) {
      StepDoes(s, step, t);
      DoesKeepTokens(s, step, t, Take(s, step, t).service);
    } else if step.ResumeStep? {
      var late := ExpireStep(step.id);
      TimersAreGranted(s, step.id, t);
      StepDoes(s, late, t);
      DoesKeepTokens(s, late, t, Take(s, late, t).service);
    }
  }

  lemma TimersAreGranted(s: Service, id: SessionId, t: Clock)
    requires hide *; Inv(s)
    ensures Possible(s, ExpireStep(id)) && IsGranted(s, ExpireStep(id), t)
  {
  }

  lemma TakeIssues(events: seq<Event>, s: Service, step: Step, t: Clock)
    requires hide *; Inv(s) && Possible(s, step) && !step.RecoverStep? && SessionsIssued(events, s.sessions)
    ensures SessionsIssued(events + [Begin(step, t)], Take(s, step, t).service.sessions)
    ensures Newcomer(step).None? ==> SessionsIssued(events, Take(s, step, t).service.sessions)
  {
    hide Inv, Possible, Take, Issued;
    StepKeepsTokens(s, step, t);
    IssuedGrows(events, Begin(step, t));
    if Newcomer(step).Some? {
      NewcomerIsIssued(events, step, t);
    }
  }

  lemma NewcomerIsIssued(events: seq<Event>, step: Step, t: Clock)
    requires step.CreateStep? || step.JoinStep?
    ensures Issued(events + [Begin(step, t)], step.code, step.id, step.digest)
  {
    assert Admits((events + [Begin(step, t)])[|events|], step.code, step.id, step.digest);
  }

  // Recovery brings tokens back from the record.
  lemma RecoveredIssued(events: seq<Event>, s: Service, record: Record, t: Clock)
    requires hide *; Possible(s, RecoverStep(record)) && SessionsIssued(events, s.sessions) && RecordIssued(events, record.roomCode, record)
    ensures SessionsIssued(events, RecoverRoom(s, record, t).service.sessions)
  {
    hide FreshSession, AggregateValid, BeforeSave, SyncedIfPlaying, RecoveredSessions, RecoveredSeats, Issued;
    var sessions := RecoveredSessions(s, record, t);
    forall id | id in sessions ensures Issued(events, sessions[id].roomCode, id, sessions[id].tokenDigest) {
      RecoveredToken(s, record, t, id);
    }
  }

  lemma RecoveredToken(s: Service, record: Record, t: Clock, id: SessionId)
    requires hide *; Possible(s, RecoverStep(record)) && id in RecoveredSessions(s, record, t)
    ensures var after := RecoveredSessions(s, record, t)[id];
            || (id in s.sessions && after == s.sessions[id])
            || (exists k :: 0 <= k < |record.sessions| && record.sessions[k].session == id
                            && after.roomCode == record.roomCode && after.tokenDigest == record.sessions[k].tokenDigest)
  {
    hide FreshSession, OriginalsValid, CachesValid, RecordSeatValid, GameValid;
    FindSavedIs(record.sessions, id);
    hide FindSaved;
    if FindSaved(record.sessions, id).Some? {
      var k :| 0 <= k < |record.sessions| && record.sessions[k] == FindSaved(record.sessions, id).value;
    }
  }

  // Every event keeps it so.

  lemma EndedIssues(events: seq<Event>, v: Server, before: Service, o: RoomOutcome, work: seq<Work>, fate: Fate)
    requires hide *; Good(o) && SessionsIssued(events, o.service.sessions) && StoreIssued(events, v.store)
    ensures TokensInv(events, Ended(v, before, o, work, fate))
  {
    hide Inv, AggregateValid, RecordOf, Issued, SessionsIssued, RecordIssued;
    if o.saved.Some? {
      RecordOfIssued(events, o.service, o.saved.value);
    }
  }

  lemma EffectedIssues(events: seq<Event>, store: map<RoomCode, Record>, pending: map<RoomCode, Write>, done: set<RoomCode>)
    requires StoreIssued(events, store) && PendingIssued(events, pending)
    ensures StoreIssued(events, Effected(store, pending, done))
  {
    hide RecordIssued;
  }

  lemma BeginIssues(events: seq<Event>, v: Server, step: Step, t: Clock)
    requires ServerInv(v) && TokensInv(events, v) && MayBegin(v, step)
    ensures TokensInv(events + [Begin(step, t)], Next(v, Begin(step, t)))
  {
    hide ServerInv, Inv, HostsAlive, AggregateValid, Take, Possible, RecordOf, Issued, SessionsIssued, RecordIssued, Concerned, Unused;
    var p := v.live.value;
    LiveHolds(v, p);
    TokensStay(events, Begin(step, t), v);
    TakeIssues(events, p.service, step, t);
    StepIsGood(p.service, step, t);
    var o := Take(p.service, step, t);
    if o.saved.Some? {
      RecordOfIssued(events + [Begin(step, t)], o.service, o.saved.value);
    }
  }

  lemma FinishIssues(events: seq<Event>, v: Server, p: Process, code: RoomCode)
    requires hide *; TokensInv(events, v) && v.live == Some(p) && code in p.pending
    ensures TokensInv(events, RoomStore.Finished(v, p, code))
  {
    hide RecordIssued, Issued, Effected, HoldsSession;
    EffectedIssues(events, v.store, p.pending, {code});
  }

  lemma ProceedIssues(events: seq<Event>, v: Server, p: Process, t: Clock, fate: Fate)
    requires hide *; ServerInv(v) && TokensInv(events, v) && v.live == Some(p) && p.work != []
    ensures TokensInv(events, Proceeded(v, p, t, fate))
  {
    hide ServerInv, Take, Loaded, Settled, Ended, SessionsIssued, StoreIssued, PendingIssued, HostsAlive, Inv, Good;
    LiveHolds(v, p);
    match p.work[0] {
      case Load(code) => LoadIssues(events, v, p, t, fate);
      case Lapse(id) =>
        var step := ExpireStep(id);
        TimersAreGranted(p.service, id, t);
        TakeIssues(events, p.service, step, t);
        StepIsGood(p.service, step, t);
        EndedIssues(events, v, p.service, Take(p.service, step, t), p.work[1..], fate);
      case Settle(code) =>
        SettledIsGood(p.service, code, t);
        SettledSessions(p.service, code, t);
        EndedIssues(events, v, p.service, Settled(p.service, code, t), p.work[1..], fate);
    }
  }

  lemma SettledSessions(s: Service, code: RoomCode, t: Clock)
    ensures Settled(s, code, t).service.sessions == s.sessions
    ensures forall c :: c in Settled(s, code, t).service.rooms ==> c in s.rooms && Settled(s, code, t).service.rooms[c].seats == s.rooms[c].seats
  {
    hide BeforeSave;
    FacesKept(t);
    if code in s.rooms {
      assert FaceOf(BeforeSave(s.rooms[code], t)) == FaceOf(s.rooms[code]);
    }
  }

  lemma LoadIssues(events: seq<Event>, v: Server, p: Process, t: Clock, fate: Fate)
    requires hide *; ServerInv(v) && TokensInv(events, v) && v.live == Some(p) && p.work != [] && p.work[0].Load?
    ensures TokensInv(events, Proceeded(v, p, t, fate))
  {
    hide ServerInv, Lapsed, Possible, Clashes, RecoverRoom, Ended, SessionsIssued, RecordIssued, HostsAlive, Inv, Good;
    RecordIsFresh(v, p);
    LiveHolds(v, p);
    var code := p.work[0].code;
    var record := v.store[code];
    if !Lapsed(record, t) {
      RecoverIsGood(p.service, record, t);
      RecoveredIssued(events, p.service, record, t);
      var o := RecoverRoom(p.service, record, t);
      GoodUnsaved(o);
      EndedIssues(events, v, p.service, o.(saved := if record.game.None? then None else o.saved),
                  Lapses(record.sessions) + [Settle(record.roomCode)] + p.work[1..], fate);
    } else {
      NothingIsPending(events);
    }
  }

  lemma GoodUnsaved(o: RoomOutcome)
    requires Good(o)
    ensures Good(o.(saved := None))
  {
    hide Inv, AggregateValid;
  }

  lemma NothingIsPending(events: seq<Event>)
    ensures PendingIssued(events, map[]) && SessionsIssued(events, map[])
  {
  }

  lemma NextIssues(events: seq<Event>, v: Server, e: Event)
    requires hide *; ServerInv(v) && TokensInv(events, v)
    ensures TokensInv(events + [e], Next(v, e))
  {
    hide ServerInv, TokensInv, Proceeded, MayBegin, Take, Begun, RoomStore.Finished, Lists, Concerned, Effected;
    TokensStay(events, e, v);
    match e {
      case Begin(step, t) => if MayBegin(v, step) { BeginIssues(events, v, step, t); }
      case Finish(code) => if v.live.Some? && code in v.live.value.pending { FinishIssues(events + [e], v, v.live.value, code); }
      case Proceed(t, fate) => if v.live.Some? && v.live.value.work != [] { ProceedIssues(events + [e], v, v.live.value, t, fate); }
      case Crash(done) => CrashIssues(events + [e], v, done);
      case Boot(order) => BootIssues(events + [e], v, order);
    }
  }

  lemma CrashIssues(events: seq<Event>, v: Server, done: set<RoomCode>)
    requires TokensInv(events, v)
    ensures TokensInv(events, Crashed(v, done))
  {
    hide RecordIssued, SessionsIssued, Effected;
    if v.live.Some? {
      EffectedIssues(events, v.store, v.live.value.pending, done);
    }
  }

  lemma BootIssues(events: seq<Event>, v: Server, order: seq<RoomCode>)
    requires TokensInv(events, v)
    ensures TokensInv(events, Next(v, Boot(order)))
  {
    hide RecordIssued, Lists;
    NothingIsPending(events);
  }

  lemma {:induction false} RunIssues(events: seq<Event>)
    ensures ServerInv(Run(events)) && TokensInv(events, Run(events))
  {
    hide ServerInv, Next, TokensInv;
    RunKeeps(events);
    if events == [] {
      EmptyIsIssued();
    } else {
      var n := |events| - 1;
      RunIssues(events[..n]);
      NextIssues(events[..n], Run(events[..n]), events[n]);
      assert events == events[..n] + [events[n]];
    }
  }

  lemma EmptyIsIssued()
    ensures TokensInv([], NEW_SERVER)
  {
  }

  // Somebody who was away is connected on the same seat.
  predicate ComesBack(s: Service, after: Service, code: RoomCode, i: nat, id: SessionId) {
    && code in s.rooms && code in after.rooms && i < |s.rooms[code].seats| && i < |after.rooms[code].seats|
    && s.rooms[code].seats[i].HumanSeat? && s.rooms[code].seats[i].session == id && s.rooms[code].seats[i].connection != Connected
    && after.rooms[code].seats[i].HumanSeat? && after.rooms[code].seats[i].session == id
    && after.rooms[code].seats[i].connection == Connected
  }

  lemma DoesBringBack(s: Service, step: Step, t: Clock, after: Service, code: RoomCode, i: nat, id: SessionId)
    requires hide *; Inv(s) && Possible(s, step) && IsGranted(s, step, t) && Does(s, step, t, after) && !step.RecoverStep?
    requires Concerned(s, step) == Some(code) && ComesBack(s, after, code, i, id)
    ensures step.ResumeStep? && (step.code, step.id, step.seat) == (code, id, i) && HasToken(s, code, id, i, step.digest)
  {
    hide Inv, Renews, HostPasses, MayDecide, IsFirstConnected, IsConnected, IsReadySeat, HasTwoHumans, FreshSession, Fits;
    if step.ResumeStep? {
      MemberFacts(s, step.id);
    }
  }

  // Only a resumption with the session's own token brings anybody back.
  lemma StepBringsBack(s: Service, step: Step, t: Clock, code: RoomCode, i: nat, id: SessionId)
    requires hide *; Inv(s) && Possible(s, step) && !step.RecoverStep? && ComesBack(s, Take(s, step, t).service, code, i, id)
    ensures step.ResumeStep? && (step.code, step.id, step.seat) == (code, id, i) && HasToken(s, code, id, i, step.digest)
  {
    hide Inv, Possible, Take, IsGranted, Does, HasToken, Concerned, SameEntry, HoldsSession;
    if Concerned(s, step) != Some(code) {
      Elsewhere(s, step, t, code);
    }
    GrantedExactly(s, step, t);
    if IsGranted(s, step, t) {
      StepDoes(s, step, t);
      DoesBringBack(s, step, t, Take(s, step, t).service, code, i, id);
    } else if step.ResumeStep? && HasToken(s, step.code, step.id, step.seat, step.digest) {
      var late := ExpireStep(step.id);
      TimersAreGranted(s, step.id, t);
      StepDoes(s, late, t);
      SameRoomConcerned(s, step);
      DoesBringBack(s, late, t, Take(s, late, t).service, code, i, id);
    }
  }

  lemma SameRoomConcerned(s: Service, step: Step)
    requires step.ResumeStep?
    ensures Concerned(s, step) == Concerned(s, ExpireStep(step.id))
  {
  }

  lemma RecoveryBringsNobodyBack(v: Server, p: Process, t: Clock, fate: Fate, code: RoomCode, i: nat, id: SessionId)
    requires hide *; ServerInv(v) && v.live == Some(p) && p.work != [] && Proceeded(v, p, t, fate).live.Some?
    ensures !ComesBack(p.service, Proceeded(v, p, t, fate).live.value.service, code, i, id)
  {
    hide ServerInv, HostsAlive, Inv, Good, RecordOf, StoreAfter, Take, Possible, RecoverRoom, Settled, Clashes, Lapsed;
    LiveHolds(v, p);
    match p.work[0] {
      case Load(loaded) =>
        RecordIsFresh(v, p);
        var o := RecoverRoom(p.service, v.store[loaded], t);
        RecoveredElsewhere(p.service, v.store[loaded], t, code);
      case Lapse(late) =>
        TimersAreGranted(p.service, late, t);
        if ComesBack(p.service, Take(p.service, ExpireStep(late), t).service, code, i, id) {
          StepBringsBack(p.service, ExpireStep(late), t, code, i, id);
        }
      case Settle(settled) => SettledSessions(p.service, settled, t);
    }
  }

  lemma RecoveredElsewhere(s: Service, record: Record, t: Clock, code: RoomCode)
    requires hide *; Possible(s, RecoverStep(record))
    ensures code in s.rooms ==> code in RecoverRoom(s, record, t).service.rooms && RecoverRoom(s, record, t).service.rooms[code] == s.rooms[code]
  {
    hide AggregateValid, FreshSession, RecoveredSeats, RecoveredSessions, SyncedIfPlaying, BeforeSave;
  }

  // On every run, whoever is away takes a seat again by one event only: a resumption that names
  // the Room, the session and the seat, with the very token that was issued when the session
  // created or joined the Room.
  lemma OnlyTheTokenConnects(events: seq<Event>, e: Event, code: RoomCode, i: nat, id: SessionId)
    requires Run(events).live.Some? && Next(Run(events), e).live.Some?
    requires ComesBack(Run(events).live.value.service, Next(Run(events), e).live.value.service, code, i, id)
    ensures e.Begin? && e.step.ResumeStep? && (e.step.code, e.step.id, e.step.seat) == (code, id, i)
    ensures Issued(events, code, id, e.step.digest)
    ensures HasToken(Run(events).live.value.service, code, id, i, e.step.digest)
  {
    hide ServerInv, Run, Take, MayBegin, Concerned, Lists, Effected, Issued, Proceeded, HasToken;
    RunIssues(events);
    var v := Run(events);
    var p := v.live.value;
    LiveHolds(v, p);
    match e {
      case Begin(step, t) =>
        if MayBegin(v, step) {
          BegunIsPossible(v, step);
          BegunBringsBack(v, p, step, t, code, i, id);
          TokenIsIssued(events, p.service, code, id, i, step.digest);
        }
      case Finish(closed) =>
      case Proceed(t, fate) => if p.work != [] { RecoveryBringsNobodyBack(v, p, t, fate, code, i, id); }
      case Crash(_) =>
      case Boot(_) =>
    }
  }

  lemma TokenIsIssued(events: seq<Event>, s: Service, code: RoomCode, id: SessionId, i: nat, digest: string)
    requires SessionsIssued(events, s.sessions) && HasToken(s, code, id, i, digest)
    ensures Issued(events, code, id, digest)
  {
    hide Issued;
  }

  lemma BegunIsPossible(v: Server, step: Step)
    requires MayBegin(v, step)
    ensures Possible(v.live.value.service, step) && !step.RecoverStep?
  {
  }

  lemma BegunBringsBack(v: Server, p: Process, step: Step, t: Clock, code: RoomCode, i: nat, id: SessionId)
    requires hide *; Inv(p.service) && v.live == Some(p) && Possible(p.service, step) && !step.RecoverStep?
    requires var v' := Begun(v, p, Concerned(p.service, step), Take(p.service, step, t));
             v'.live.Some? && ComesBack(p.service, v'.live.value.service, code, i, id)
    ensures step.ResumeStep? && (step.code, step.id, step.seat) == (code, id, i) && HasToken(p.service, code, id, i, step.digest)
  {
    hide Inv, Take, Possible, Concerned, RecordOf, HasToken;
    StepBringsBack(p.service, step, t, code, i, id);
  }

  // With any other token nothing happens at all.
  lemma OtherTokensChangeNothing(v: Server, code: RoomCode, id: SessionId, i: nat, digest: string, t: Clock)
    requires v.live.Some? && !HasToken(v.live.value.service, code, id, i, digest)
    ensures Next(v, Begin(ResumeStep(code, id, i, digest), t)) == v
  {
    hide MayBegin, Resume, HasToken;
    WrongTokenIsRefused(v.live.value.service, code, id, i, digest, t);
    if MayBegin(v, ResumeStep(code, id, i, digest)) {
      ResumeIsPossible(v.live.value.service, code, id, i, digest);
    }
  }

  lemma ResumeIsPossible(s: Service, code: RoomCode, id: SessionId, i: nat, digest: string)
    ensures Possible(s, ResumeStep(code, id, i, digest))
  {
  }
}
