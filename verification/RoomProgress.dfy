// What the server gets done when nothing goes wrong: an operation is carried out and written, and
// recovery comes to an end.

module RoomProgress {
  import opened Board
  import opened Sessions
  import opened Rooms
  import opened RoomSteps
  import opened RoomSafety
  import opened RoomEffects
  import opened RoomStore
  import Progress

  // An operation takes effect in memory at once, and when its write is done the repository has
  // the Room as it is; a Room that closes goes from memory and repository together; an operation
  // that changes nothing writes nothing.
  lemma OperationsAreServed(events: seq<Event>, step: Step, t: Clock)
    requires MayBegin(Run(events), step)
    ensures var v, p := Run(events), Run(events).live.value;
            var o := Take(p.service, step, t);
            var begun := Next(v, Begin(step, t));
            && begun.live.Some? && begun.store == v.store && begun.live.value.work == []
            && (o.saved.None? && o.service == p.service ==> begun == v)
            && (o.saved.Some? ==>
                  var code, done := o.saved.value, Next(begun, Finish(o.saved.value));
                  && code in o.service.rooms && begun.live.value.service == o.service
                  && done.live == Some(Process(o.service, [], p.pending))
                  && done.store == v.store[code := RecordOf(code, o.service.rooms[code], o.service.sessions)])
            && (o.saved.None? && o.service != p.service ==>
                  && begun.live.value.service == p.service
                  && exists code :: code in p.service.rooms && o.service == WithoutRoom(p.service, code)
                                    && Next(begun, Finish(code)).live == Some(Process(o.service, [], p.pending))
                                    && Next(begun, Finish(code)).store == v.store - {code})
  {
    hide Inv, HostsAlive, Take, Possible, Concerned, WithoutRoom, Run, ServerInv, Tidy, OthersStay, Unused, RecordOf, Effected;
    RunKeeps(events);
    var v, p := Run(events), Run(events).live.value;
    LiveHolds(v, p);
    var o := Take(p.service, step, t);
    StepIsTidy(p.service, step, t);
    TidyCode(p.service, o, Concerned(p.service, step), Newcomer(step));
    var begun := Next(v, Begin(step, t));
    if o.saved.Some? {
      SavedIsThere(p.service, o, Newcomer(step));
      EffectedIs(v.store, begun.live.value.pending, o.saved.value);
      assert begun.live.value.pending - {o.saved.value} == p.pending;
    } else if o.service != p.service {
      var code := if Concerned(p.service, step).Some? then Concerned(p.service, step).value else "";
      OneRoomMoves(p.service, step, t, code);
      OnlyCloses(p.service, o, Concerned(p.service, step), code, Newcomer(step));
      ConcernedMoves(p.service, step, t);
      EffectedIs(v.store, begun.live.value.pending, code);
      assert begun.live.value.pending - {code} == p.pending;
      assert Next(begun, Finish(code)).live == Some(Process(o.service, [], p.pending));
    }
  }

  lemma SavedIsThere(s: Service, o: RoomOutcome, newcomer: Option<SessionId>)
    requires Tidy(s, o, o.saved, newcomer) && o.saved.Some?
    ensures o.saved.value in o.service.rooms
  {
    hide Holders;
  }

  // Recovery.

  // How much recovery still has to do: a Room to load brings at most four sessions and its own
  // settling with it.
  function Weight(work: seq<Work>): nat {
    if work == [] then 0 else (if work[0].Load? then 6 else 1) + Weight(work[1..])
  }

  lemma {:induction false} WeightOfSum(a: seq<Work>, b: seq<Work>)
    ensures Weight(a + b) == Weight(a) + Weight(b)
  {
    if a == [] {
      assert a + b == b;
    } else {
      assert (a + b)[1..] == a[1..] + b;
      WeightOfSum(a[1..], b);
    }
  }

  lemma {:induction false} LapsesWeigh(sessions: seq<SavedSession>)
    ensures Weight(Lapses(sessions)) == |sessions|
  {
    if sessions != [] {
      assert Lapses(sessions)[1..] == Lapses(sessions[1..]);
      LapsesWeigh(sessions[1..]);
    }
  }

  function SeatsOf(sessions: seq<SavedSession>): set<nat> {
    set k | 0 <= k < |sessions| :: sessions[k].seat
  }

  lemma {:induction false} EachHasASeat(sessions: seq<SavedSession>)
    requires forall j, k :: 0 <= j < k < |sessions| ==> sessions[j].seat != sessions[k].seat
    ensures |SeatsOf(sessions)| == |sessions|
    decreases |sessions|
  {
    if sessions == [] {
      assert SeatsOf(sessions) == {};
    } else {
      var n := |sessions| - 1;
      EachHasASeat(sessions[..n]);
      assert SeatsOf(sessions) == SeatsOf(sessions[..n]) + {sessions[n].seat} by {
        assert forall k :: 0 <= k < n ==> sessions[..n][k] == sessions[k];
      }
    }
  }

  lemma FourSeats(sessions: seq<SavedSession>)
    requires forall k :: 0 <= k < |sessions| ==> sessions[k].seat < 4
    ensures |SeatsOf(sessions)| <= 4
  {
    var seats, taken: set<nat> := {0, 1, 2, 3}, SeatsOf(sessions);
    Progress.SubsetBound(taken, seats);
  }

  // No two saved sessions share one of the four seats.
  lemma FourSessions(record: Record)
    requires AggregateValid(record)
    ensures |record.sessions| <= 4
  {
    hide GameValid, RecordSeatValid, SeatsOf;
    EachHasASeat(record.sessions);
    FourSeats(record.sessions);
  }

  // One step of recovery succeeds and leaves less to do.
  lemma RecoveryAdvances(events: seq<Event>, t: Clock)
    requires Run(events).live.Some? && Run(events).live.value.work != []
    ensures var v := Next(Run(events), Proceed(t, Completes));
            v.live.Some? && Weight(v.live.value.work) < Weight(Run(events).live.value.work) && v.live.value.pending == map[]
  {
    hide ServerInv, Run, Take, RecoverRoom, Settled, StoreAfter, Clashes, AggregateValid, Lapsed;
    RecoveryNeverRefuses(events);
    EverySavedRecordIsValid(events);
    var v, work := Run(events), Run(events).live.value.work;
    if work[0].Load? {
      var record := v.store[work[0].code];
      FourSessions(record);
      LapsesWeigh(record.sessions);
      WeightOfSum(Lapses(record.sessions) + [Settle(record.roomCode)], work[1..]);
      WeightOfSum(Lapses(record.sessions), [Settle(record.roomCode)]);
      assert Weight([Settle(record.roomCode)]) == 1;
    }
  }

  predicate AllProceed(events: seq<Event>) {
    forall k :: 0 <= k < |events| ==> events[k].Proceed? && events[k].fate.Completes?
  }

  // Unless the server stops, recovery comes to an end, and then the repository holds exactly the
  // Rooms that are live, as they are.
  lemma {:induction false} RecoveryEnds(events: seq<Event>, t: Clock) returns (more: seq<Event>)
    requires Run(events).live.Some?
    ensures AllProceed(more) && Run(events + more).live.Some? && Run(events + more).live.value.work == []
    ensures |more| <= Weight(Run(events).live.value.work)
    ensures Run(events).live.value.pending == map[] ==> Run(events + more).live.value.pending == map[]
    decreases Weight(Run(events).live.value.work)
  {
    hide Next, Weight;
    if Run(events).live.value.work == [] {
      more := [];
      assert events + more == events;
    } else {
      var step := Proceed(t, Completes);
      assert (events + [step])[..|events + [step]| - 1] == events;
      RecoveryAdvances(events, t);
      more := RecoveryEnds(events + [step], t);
      assert events + [step] + more == events + ([step] + more);
      more := [step] + more;
    }
  }

  // A server that is down comes back: with the Rooms of the repository in any order, after finitely
  // many steps it is ready for the next operation, and what it has is what the repository holds.
  lemma ServerComesBack(events: seq<Event>, order: seq<RoomCode>, t: Clock) returns (more: seq<Event>)
    requires Run(events).live.None? && Lists(order, Run(events).store)
    ensures AllProceed(more)
    ensures var v := Run(events + [Boot(order)] + more);
            && v.live.Some? && v.live.value.work == [] && v.live.value.pending == map[]
            && v.store.Keys == v.live.value.service.rooms.Keys
            && forall code :: code in v.store ==>
                 v.store[code] == RecordOf(code, v.live.value.service.rooms[code], v.live.value.service.sessions)
  {
    hide Next, Run, RecordOf, Weight;
    var booted := events + [Boot(order)];
    RunMore(events, Boot(order));
    BootStarts(Run(events), order);
    more := RecoveryEnds(booted, t);
    RepositoryIsCurrent(booted + more);
  }

  lemma RunMore(events: seq<Event>, e: Event)
    ensures Run(events + [e]) == Next(Run(events), e)
  {
    hide Next;
    assert (events + [e])[..|events + [e]| - 1] == events;
  }

  lemma BootStarts(v: Server, order: seq<RoomCode>)
    requires v.live.None? && Lists(order, v.store)
    ensures Next(v, Boot(order)).live.Some? && Next(v, Boot(order)).live.value.pending == map[]
  {
  }
}
