// The session object and the queue in front of it, method by method.

module GameSessions {
  import opened Board
  import opened GameModel
  import opened Sessions

  // How a save ends: done; lost; or done although the caller is told it failed.
  datatype SaveOutcome = Stored | Lost | StoredButFailed

  // One durable record, written atomically.
  class Repository<S> {
    var record: Option<Game<S>>
    // Every game the record has held, oldest first.
    ghost var stored: seq<Game<S>>

    constructor ()
      ensures record.None? && stored == []
    {
      record, stored := None, [];
    }

    method Save(game: Game<S>, outcome: SaveOutcome) returns (ok: bool)
      modifies this
      ensures ok == outcome.Stored?
      ensures record == if outcome.Lost? then old(record) else Some(game)
      ensures stored == if outcome.Lost? then old(stored) else old(stored) + [game]
    {
      if !outcome.Lost? {
        record, stored := Some(game), stored + [game];
      }
      ok := outcome.Stored?;
    }
  }

  datatype Publication<S> = Publication(revision: nat, state: S, presence: Presence)

  // Revisions of stored games never fall, and none is beyond the given one.
  ghost predicate InStep<S>(stored: seq<Game<S>>, revision: nat) {
    && (forall i, j :: 0 <= i < j < |stored| ==> stored[i].publicationRevision <= stored[j].publicationRevision)
    && (forall i :: 0 <= i < |stored| ==> stored[i].publicationRevision <= revision)
  }

  ghost predicate IsStored<S>(stored: seq<Game<S>>, copies: Committed<S>) {
    exists k :: 0 <= k < |stored| && copies == CommittedOf(stored[k])
  }

  // A publication to the session that a stored game backs.
  ghost predicate IsDurable<S>(stored: seq<Game<S>>, session: SessionId, shown: Publication<S>) {
    exists k :: 0 <= k < |stored| && session in stored[k].humans
                && shown == Publication(stored[k].publicationRevision, stored[k].state, PresenceOf(stored[k]))
  }

  // One AI decision, and how the save that follows it ends.
  datatype AiTurn = AiTurn(choice: Option<Command>, outcome: SaveOutcome)

  class GameSession<S> {
    const config: Config<S>
    const aiPlayers: set<PlayerId>
    var state: S
    var publicationRevision: nat
    var humanPlayers: map<SessionId, PlayerId>
    var replacementProfiles: map<PlayerId, ProfileId>
    var disconnectedSeats: seq<SeatPresence>
    var abandonedDeadlineMs: Option<int>
    var cache: map<SessionId, seq<CacheEntry>>
    var aiCommandCount: nat
    var failed: bool
    var closed: bool
    var stopping: bool
    var transportPaused: bool
    var committed: Option<Committed<S>>

    // The durable part of the fields, and the latches.

    function Value(): Game<S>
      reads this
    {
      Game(state, publicationRevision, humanPlayers, replacementProfiles, aiPlayers, disconnectedSeats, abandonedDeadlineMs,
           cache, aiCommandCount, failed)
    }

    function Latched(): Latches
      reads this
    {
      Latches(closed, stopping, transportPaused)
    }

    // Both the start of a game and its restoration from the record.
    constructor (config: Config<S>, saved: Game<S>)
      ensures Value() == saved && Latched() == Latches(false, false, false)
      ensures this.config == config && committed == Some(CommittedOf(saved))
      ensures forall repository: Repository<S> ::
                saved in repository.stored && InStep(repository.stored, saved.publicationRevision) ==> Valid(repository)
    {
      this.config := config;
      aiPlayers := saved.aiPlayers;
      state, publicationRevision := saved.state, saved.publicationRevision;
      humanPlayers, replacementProfiles := saved.humans, saved.replacements;
      disconnectedSeats, abandonedDeadlineMs := saved.disconnectedSeats, saved.abandonedDeadlineMs;
      cache, aiCommandCount, failed := saved.cache, saved.aiCommandCount, saved.failed;
      closed, stopping, transportPaused := false, false, false;
      committed := Some(CommittedOf(saved));
    }

    // The copies a snapshot reads are those of a game the repository has stored.
    ghost predicate Valid(repository: Repository<S>)
      reads this, repository
    {
      InStep(repository.stored, publicationRevision) && (committed.Some? ==> IsStored(repository.stored, committed.value))
    }

    // Memory, the copies and the record agree.
    ghost predicate Synced(repository: Repository<S>)
      reads this, repository
    {
      repository.record == Some(Value()) && committed == Some(CommittedOf(Value()))
    }

    method AcceptCommit()
      modifies this`committed
      ensures committed == Some(CommittedOf(Value()))
    {
      committed := Some(CommittedOf(Value()));
    }

    // Whatever is in flight or has failed, a snapshot shows a member a game that was stored.
    method Snapshot(repository: Repository<S>, session: SessionId) returns (shown: Option<Publication<S>>)
      requires Valid(repository)
      ensures shown.Some? <==> committed.Some? && session in committed.value.humans
      ensures shown.Some? ==> IsDurable(repository.stored, session, shown.value) && shown.value.revision <= publicationRevision
      ensures Synced(repository) ==>
                && (shown.Some? <==> session in humanPlayers)
                && (shown.Some? ==> shown.value == Publication(publicationRevision, state, Presence(
                      replacementProfiles, disconnectedSeats, abandonedDeadlineMs, failed)))
    {
      if committed.None? || session !in committed.value.humans {
        return None;
      }
      shown := Some(Publication(committed.value.publicationRevision, committed.value.state, committed.value.presence));
    }

    // One request, in memory only.
    method ExecuteHuman(session: SessionId, request: Request) returns (acknowledgement: Acknowledgement, executed: bool, changed: bool)
      modifies this`state, this`cache
      ensures var handling := HandleHuman(config, old(Value()), Latched(), session, request);
              && Value() == handling.game && acknowledgement == handling.acknowledgement
              && executed == handling.executed && changed == handling.changed
      ensures changed ==> executed
      ensures !executed ==> Value() == old(Value())
      ensures executed ==>
                && session in humanPlayers
                && (var result := config.rules.execute(old(state), Envelope(humanPlayers[session], request.expectedStateVersion, request.command));
                    && !result.Threw? && changed == result.Accepted?
                    && state == (if result.Accepted? then result.state else old(state))
                    && acknowledgement == Done(CommandResult(result.Accepted?, request.commandId, config.rules.version(state),
                                                             if result.Rejected? then Some(result.violation) else None)))
    {
      executed, changed := false, false;
      if stopping {
        acknowledgement := Refused(GameUnavailable);
        return;
      }
      if session !in humanPlayers {
        acknowledgement := Refused(NotRoomMember);
        return;
      }
      if request.roomCode != config.roomCode || request.gameId != config.gameId {
        acknowledgement := Refused(GameNotFound);
        return;
      }
      var entries := if session in cache then cache[session] else [];
      var cached := FindEntry(entries, request.commandId);
      if cached.Some? {
        acknowledgement := if cached.value.request == request then Done(cached.value.result) else Refused(CommandIdConflict);
        return;
      }
      if closed {
        acknowledgement := Refused(RoomClosed);
        return;
      }
      var lifecycle := LifecycleStatus(config.rules, Value(), closed);
      if transportPaused || lifecycle == PausedReconnecting || lifecycle == PausedReplacementRequired {
        acknowledgement := Refused(GamePaused);
        return;
      }
      if failed {
        acknowledgement := Refused(GameUnavailable);
        return;
      }
      var result := config.rules.execute(state, Envelope(humanPlayers[session], request.expectedStateVersion, request.command));
      if result.Threw? {
        acknowledgement := Refused(InternalError);
        return;
      }
      if result.Accepted? {
        state := result.state;
      }
      var data := CommandResult(result.Accepted?, request.commandId, config.rules.version(state),
                                if result.Rejected? then Some(result.violation) else None);
      entries := entries + [CacheEntry(request, data)];
      if |entries| > config.cacheLimit {
        entries := entries[1..];
      }
      cache := cache[session := entries];
      acknowledgement, executed, changed := Done(data), true, result.Accepted?;
    }

    // Save, and on success take the committed copies.
    method Commit(repository: Repository<S>, outcome: SaveOutcome) returns (ok: bool)
      requires Valid(repository)
      modifies this`committed, repository
      ensures Valid(repository)
      ensures repository.stored == if outcome.Lost? then old(repository.stored) else old(repository.stored) + [Value()]
      ensures ok == outcome.Stored?
      ensures ok ==> Synced(repository)
      ensures !ok ==> committed == old(committed)
      ensures repository.record == if outcome.Lost? then old(repository.record) else Some(Value())
    {
      ok := repository.Save(Value(), outcome);
      if committed.Some? {
        StillStored(old(repository.stored), repository.stored, committed.value);
      }
      if ok {
        AcceptCommit();
        assert repository.stored[|repository.stored| - 1] == Value();
      }
    }

    // Nothing is published that the repository has not stored, under a revision it never had.
    method Publish(repository: Repository<S>, outcome: SaveOutcome) returns (published: Option<Publication<S>>)
      requires Valid(repository)
      modifies this`publicationRevision, this`committed, repository
      ensures Valid(repository)
      ensures repository.stored == if outcome.Lost? then old(repository.stored) else old(repository.stored) + [Value()]
      ensures forall k :: 0 <= k < |old(repository.stored)| ==> old(repository.stored)[k].publicationRevision < publicationRevision
      ensures Value() == old(Value()).(publicationRevision := old(publicationRevision) + 1) && Latched() == old(Latched())
      ensures published == if outcome.Stored? then Some(Publication(publicationRevision, state, PresenceOf(Value()))) else None
      ensures published.Some? ==> Synced(repository)
      ensures published.Some? ==> published.value.presence == Presence(replacementProfiles, disconnectedSeats, abandonedDeadlineMs, failed)
      ensures published.None? ==> committed == old(committed)
      ensures repository.record == if outcome.Lost? then old(repository.record) else Some(Value())
    {
      publicationRevision := publicationRevision + 1;
      var ok := Commit(repository, outcome);
      published := if ok then Some(Publication(publicationRevision, state, PresenceOf(Value()))) else None;
    }

    // The transport pipeline: execute, commit, publish, let the AI move, then acknowledge. No
    // acknowledgement means that a commit failed and authority stops; any other is given only
    // once the record has everything that led to it.
    method DispatchHuman(session: SessionId, request: Request, authorized: bool, repository: Repository<S>, outcome: SaveOutcome,
                         turns: seq<AiTurn>)
      returns (acknowledgement: Option<Acknowledgement>, published: Option<Publication<S>>)
      requires Synced(repository) && Valid(repository)
      modifies this`state, this`cache, this`publicationRevision, this`aiCommandCount, this`failed, this`committed, repository
      ensures Valid(repository)
      ensures acknowledgement.Some? ==> Synced(repository)
      ensures authorized ==>
                var handling := HandleHuman(config, old(Value()), Latched(), session, request);
                var raised := handling.game.(publicationRevision := handling.game.publicationRevision + 1);
                var ran := AiRun(config, raised, Latched(), turns, 0);
                && Value() == (if !handling.changed then handling.game else if outcome.Stored? then ran.game else raised)
                && (acknowledgement.Some? <==> !handling.executed || (outcome.Stored? && (handling.changed ==> ran.saved)))
                && (acknowledgement.Some? ==> acknowledgement.value == handling.acknowledgement)
                && published == (if handling.changed && outcome.Stored?
                                 then Some(Publication(raised.publicationRevision, raised.state, PresenceOf(raised))) else None)
      ensures published.Some? ==>
                && session in humanPlayers
                && (var result := config.rules.execute(old(state), Envelope(humanPlayers[session], request.expectedStateVersion, request.command));
                    result.Accepted? && published.value.state == result.state)
      ensures !authorized ==>
                Value() == old(Value()) && acknowledgement == Some(Refused(NotRoomMember)) && published.None?
    {
      hide AiRun, HandleHuman, LifecycleStatus, InStep, IsStored, CommittedOf;
      published := None;
      if !authorized {
        acknowledgement := Some(Refused(NotRoomMember));
        return;
      }
      var answer, executed, changed := ExecuteHuman(session, request);
      acknowledgement := Some(answer);
      if changed {
        published := Publish(repository, outcome);
        if published.None? {
          acknowledgement := None;
          return;
        }
        var saved := RunAi(repository, turns);
        if !saved {
          acknowledgement := None;
        }
      } else if executed {
        var ok := Commit(repository, outcome);
        if !ok {
          acknowledgement := None;
        }
      }
    }

    // One AI decision, in memory.
    method DecideAi(choice: Option<Command>, count: nat)
      requires config.rules.decisionActor(state).Some?
      modifies this`state, this`aiCommandCount, this`failed
      ensures Value() == AiStep(config, old(Value()), if count >= config.advanceLimit then None else choice).game
      ensures Latched() == old(Latched())
    {
      var actor := config.rules.decisionActor(state).value;
      if count >= config.advanceLimit || aiCommandCount >= config.maxAiCommandsPerGame || choice.None? {
        failed := true;
        return;
      }
      var result := config.rules.execute(state, Envelope(actor, config.rules.version(state), choice.value));
      if result.Accepted? {
        state := result.state;
        aiCommandCount := aiCommandCount + 1;
      } else {
        failed := true;
      }
    }

    // AI moves until a Human must decide, the choices run out, the game fails or a save does. Each
    // is committed and published before the next.
    method RunAi(repository: Repository<S>, turns: seq<AiTurn>) returns (saved: bool)
      requires Synced(repository) && Valid(repository)
      modifies this`state, this`publicationRevision, this`aiCommandCount, this`failed, this`committed, repository
      ensures Valid(repository)
      ensures saved ==> Synced(repository)
      ensures AiRan(Value(), saved) == AiRun(config, old(Value()), Latched(), turns, 0)
    {
      hide AiRun, AiStep, LifecycleStatus, GameSession.Latched, InStep, IsStored;
      var count: nat := 0;
      assert turns[0..] == turns;
      while AiToMove(config, Value(), Latched()) && count < |turns|
        invariant count <= |turns|
        invariant Latched() == old(Latched()) && Synced(repository) && Valid(repository)
        invariant AiRun(config, Value(), Latched(), turns[count..], count) == AiRun(config, old(Value()), Latched(), turns, 0)
        decreases |turns| - count
      {
        assert turns[count..][1..] == turns[count + 1..];
        AiRunUnfold(config, Value(), Latched(), turns[count..], count);
        DecideAi(turns[count].choice, count);
        var published := Publish(repository, turns[count].outcome);
        if published.None? {
          return false;
        }
        count := count + 1;
      }
      AiRunUnfold(config, Value(), Latched(), turns[count..], count);
      saved := true;
    }

    // Presence is part of the published record; an unchanged one only lifts the pause latch.
    method SetPresence(seats: seq<SeatPresence>, deadline: Option<int>, repository: Repository<S>, outcome: SaveOutcome)
      requires Valid(repository)
      modifies this`transportPaused, this`disconnectedSeats, this`abandonedDeadlineMs, this`publicationRevision, this`committed, repository
      ensures var before := old(Value());
              var same := old(closed) || (seats == before.disconnectedSeats && deadline == before.abandonedDeadlineMs);
              && Value() == (if same then before
                             else before.(disconnectedSeats := seats, abandonedDeadlineMs := deadline,
                                          publicationRevision := before.publicationRevision + 1))
              && transportPaused == (old(closed) && old(transportPaused))
              && repository.record == (if same || outcome.Lost? then old(repository.record) else Some(Value()))
              && (!same && outcome.Stored? ==> Synced(repository))
      ensures Valid(repository)
    {
      hide InStep, IsStored;
      if closed {
        return;
      }
      transportPaused := false;
      if seats == disconnectedSeats && deadline == abandonedDeadlineMs {
        return;
      }
      disconnectedSeats, abandonedDeadlineMs := seats, deadline;
      var published := Publish(repository, outcome);
    }

    method HandOver(session: SessionId, profile: ProfileId)
      requires session in humanPlayers
      modifies this`humanPlayers, this`replacementProfiles, this`cache
      ensures Value() == WithAiInSeat(old(Value()), session, profile)
    {
      replacementProfiles := replacementProfiles[humanPlayers[session] := profile];
      humanPlayers := humanPlayers - {session};
      cache := cache - {session};
    }

    // An expired Human seat passes to the AI, in memory; then the presence that is left is set,
    // which commits and publishes, and the AI moves.
    method ReplaceHuman(session: SessionId, profile: ProfileId, authorized: bool, deadline: Option<int>, repository: Repository<S>,
                        outcome: SaveOutcome, turns: seq<AiTurn>) returns (replaced: bool, saved: bool)
      requires Synced(repository) && Valid(repository)
      modifies this`humanPlayers, this`replacementProfiles, this`cache, this`transportPaused, this`disconnectedSeats,
               this`abandonedDeadlineMs, this`state, this`publicationRevision, this`aiCommandCount, this`failed, this`committed, repository
      ensures Valid(repository)
      ensures replaced <==> authorized && IsReplaceable(config, old(Value()), old(Latched()), session)
      ensures replaced ==>
                && session in old(humanPlayers) && humanPlayers == old(humanPlayers) - {session} && cache == old(cache) - {session}
                && replacementProfiles == old(replacementProfiles)[old(humanPlayers)[session] := profile]
                && abandonedDeadlineMs == deadline
                && forall seat :: seat in disconnectedSeats <==> seat in old(disconnectedSeats) && seat.player != old(humanPlayers)[session]
      ensures !replaced ==> Value() == old(Value()) && Latched() == old(Latched()) && saved
      ensures replaced ==>
                var handed := HandedOver(old(Value()), session, profile, deadline);
                var ran := AiRun(config, handed, Latched(), turns, 0);
                && Latched() == old(Latched()).(transportPaused := false)
                && Value() == (if outcome.Stored? then ran.game else handed) && (saved <==> outcome.Stored? && ran.saved)
      ensures saved ==> Synced(repository)
    {
      hide AiRun, InStep, IsStored, LifecycleStatus, WithoutSeat, IsReplaceable;
      replaced, saved := authorized && IsReplaceable(config, Value(), Latched(), session), true;
      if replaced {
        var left := PresenceLeft(config, Value(), Latched(), session);
        HandOver(session, profile);
        SetPresence(left, deadline, repository, outcome);
        saved := outcome.Stored?;
        if saved {
          saved := RunAi(repository, turns);
        }
      }
    }

    method PauseTransport()
      modifies this`transportPaused
      ensures transportPaused
    {
      transportPaused := true;
    }

    method Stop()
      modifies this`stopping
      ensures stopping
    {
      stopping := true;
    }

    // A closed session shows nothing, answers every request with a refusal and moves no AI; what
    // the repository holds is left alone.
    method Close()
      modifies this`stopping, this`closed, this`cache, this`committed
      ensures Value() == old(Value()).(cache := map[]) && committed.None?
      ensures LifecycleStatus(config.rules, Value(), Latched().closed) == Closed && !AiToMove(config, Value(), Latched())
      ensures forall session, request :: HandleHuman(config, Value(), Latched(), session, request) == Unchanged(Value(), Refused(GameUnavailable))
    {
      stopping, closed, cache, committed := true, true, map[], None;
    }
  }

  // A game after a seat has passed to the AI and the presence that is left has been published.
  function HandedOver<S>(g: Game<S>, session: SessionId, profile: ProfileId, deadline: Option<int>): Game<S>
    requires session in g.humans
  {
    WithAiInSeat(g, session, profile).(
      disconnectedSeats := WithoutSeat(g.disconnectedSeats, g.humans[session]), abandonedDeadlineMs := deadline,
      publicationRevision := g.publicationRevision + 1)
  }

  // The presence without the seat of an expired Human: always a change.
  function PresenceLeft<S>(c: Config<S>, g: Game<S>, f: Latches, session: SessionId): (left: seq<SeatPresence>)
    requires IsReplaceable(c, g, f, session)
    ensures session in g.humans && !f.closed
    ensures left == WithoutSeat(g.disconnectedSeats, g.humans[session]) && left != g.disconnectedSeats
    ensures forall seat :: seat in left <==> seat in g.disconnectedSeats && seat.player != g.humans[session]
  {
    SeatLeaves(g.disconnectedSeats, g.humans[session]);
    WithoutSeat(g.disconnectedSeats, g.humans[session])
  }

  lemma {:induction false} SeatLeaves(seats: seq<SeatPresence>, p: PlayerId)
    ensures |WithoutSeat(seats, p)| <= |seats|
    ensures forall seat :: seat in WithoutSeat(seats, p) <==> seat in seats && seat.player != p
    ensures (exists i :: 0 <= i < |seats| && seats[i].player == p) ==> |WithoutSeat(seats, p)| < |seats|
  {
    if seats != [] {
      SeatLeaves(seats[1..], p);
      if i :| 0 <= i < |seats| && seats[i].player == p {
        assert i > 0 ==> seats[1..][i - 1] == seats[i];
      }
    }
  }

  lemma StillStored<S>(stored: seq<Game<S>>, longer: seq<Game<S>>, copies: Committed<S>)
    requires IsStored(stored, copies) && stored <= longer
    ensures IsStored(longer, copies)
  {
    var k :| 0 <= k < |stored| && copies == CommittedOf(stored[k]);
    assert longer[k] == stored[k];
  }

  // What a run of AI turns does, and whether every save on the way succeeded.
  datatype AiRan<S> = AiRan(game: Game<S>, saved: bool)

  function AiRun<S>(c: Config<S>, g: Game<S>, f: Latches, turns: seq<AiTurn>, count: nat): AiRan<S>
    decreases |turns|
  {
    if turns == [] || !AiToMove(c, g, f) then AiRan(g, true)
    else
      var step := AiStep(c, g, if count >= c.advanceLimit then None else turns[0].choice);
      var raised := step.game.(publicationRevision := step.game.publicationRevision + 1);
      if turns[0].outcome.Stored? then AiRun(c, raised, f, turns[1..], count + 1) else AiRan(raised, false)
  }

  lemma AiRunUnfold<S>(c: Config<S>, g: Game<S>, f: Latches, turns: seq<AiTurn>, count: nat)
    ensures turns == [] || !AiToMove(c, g, f) ==> AiRun(c, g, f, turns, count) == AiRan(g, true)
    ensures turns != [] && AiToMove(c, g, f) ==>
              var game := AiStep(c, g, if count >= c.advanceLimit then None else turns[0].choice).game;
              var raised := game.(publicationRevision := game.publicationRevision + 1);
              AiRun(c, g, f, turns, count)
              == if turns[0].outcome.Stored? then AiRun(c, raised, f, turns[1..], count + 1) else AiRan(raised, false)
  {
    hide AiStep, LifecycleStatus;
  }

  // In one go the AI moves no more often than its limit, and whatever it may still do afterwards it
  // has not been asked to.
  lemma {:induction false} AdvanceIsLimited<S>(c: Config<S>, g: Game<S>, f: Latches, turns: seq<AiTurn>, count: nat)
    ensures var ran := AiRun(c, g, f, turns, count).game;
            && g.aiCommandCount <= ran.aiCommandCount <= g.aiCommandCount + (if count < c.advanceLimit then c.advanceLimit - count else 0)
            && (ran.humans, ran.replacements, ran.disconnectedSeats, ran.cache) == (g.humans, g.replacements, g.disconnectedSeats, g.cache)
    decreases |turns|
  {
    hide AiRun, AiStep, AiToMove;
    AiRunUnfold(c, g, f, turns, count);
    if turns != [] && AiToMove(c, g, f) {
      AiMovesExactly(c, g, f);
      var choice := if count >= c.advanceLimit then None else turns[0].choice;
      AiStepsExactly(c, g, choice);
      var game := AiStep(c, g, choice).game;
      AdvanceIsLimited(c, game.(publicationRevision := game.publicationRevision + 1), f, turns[1..], count + 1);
    }
  }

  // The AI goes on until it has nothing to decide or a save fails: every choice it was given is a
  // move, each under the next revision.
  lemma {:induction false} AiGoesOn<S>(c: Config<S>, g: Game<S>, f: Latches, turns: seq<AiTurn>, count: nat)
    ensures var ran := AiRun(c, g, f, turns, count);
            && ran.game.publicationRevision >= g.publicationRevision
            && (ran.saved && AiToMove(c, ran.game, f) ==>
                  && ran.game.aiCommandCount == g.aiCommandCount + |turns|
                  && ran.game.publicationRevision == g.publicationRevision + |turns|)
            && (!ran.saved ==> exists k :: 0 <= k < |turns| && !turns[k].outcome.Stored?)
    decreases |turns|
  {
    hide AiRun, AiStep, AiToMove;
    AiRunUnfold(c, g, f, turns, count);
    if turns != [] && AiToMove(c, g, f) {
      AiMovesExactly(c, g, f);
      var choice := if count >= c.advanceLimit then None else turns[0].choice;
      AiStepsExactly(c, g, choice);
      var game := AiStep(c, g, choice).game;
      var raised := game.(publicationRevision := game.publicationRevision + 1);
      AiMovesExactly(c, raised, f);
      if turns[0].outcome.Stored? {
        AiGoesOn(c, raised, f, turns[1..], count + 1);
        AiRunUnfold(c, raised, f, turns[1..], count + 1);
        if raised.failed {
          assert AiRun(c, raised, f, turns[1..], count + 1) == AiRan(raised, true);
        }
        assert forall k :: 0 <= k < |turns| - 1 ==> turns[1..][k] == turns[k + 1];
      } else {
        assert !turns[0].outcome.Stored?;
      }
    }
  }

  // An operation holding a position in the queue.
  datatype Operation = Operation(id: int, control: bool)

  const CONTROL_POSITIONS := 16

  // Admission order is execution order. Control operations have sixteen positions of their
  // own, so client load can never keep a disconnect or an expiry out.
  class GameExecutionQueue {
    const capacity: nat
    var waiting: seq<Operation>
    var size: nat
    var controlSize: nat

    ghost predicate Valid()
      reads this
    {
      && size == |waiting| && controlSize == ControlCount(waiting)
      && controlSize <= CONTROL_POSITIONS && size - controlSize <= capacity
    }

    constructor (capacity: nat)
      requires 1 <= capacity <= 256
      ensures Valid() && waiting == [] && this.capacity == capacity
    {
      this.capacity := capacity;
      waiting, size, controlSize := [], 0, 0;
    }

    // Admission fails only when the operation's own share is full.
    method Run(operation: Operation) returns (admitted: bool)
      requires Valid()
      modifies this
      ensures Valid()
      ensures admitted <==> (if operation.control then ControlCount(old(waiting)) < CONTROL_POSITIONS
                             else |old(waiting)| - ControlCount(old(waiting)) < capacity)
      ensures waiting == if admitted then old(waiting) + [operation] else old(waiting)
    {
      if (if operation.control then controlSize >= CONTROL_POSITIONS else size - controlSize >= capacity) {
        return false;
      }
      ControlAppend(waiting, operation);
      size := size + 1;
      if operation.control {
        controlSize := controlSize + 1;
      }
      waiting := waiting + [operation];
      admitted := true;
    }

    // The oldest operation ends, well or badly, and gives its position back.
    method Settle() returns (operation: Operation)
      requires Valid() && waiting != []
      modifies this
      ensures Valid() && old(waiting) == [operation] + waiting
    {
      operation := waiting[0];
      size := size - 1;
      if operation.control {
        controlSize := controlSize - 1;
      }
      waiting := waiting[1..];
    }
  }

  function ControlCount(operations: seq<Operation>): nat {
    if operations == [] then 0 else (if operations[0].control then 1 else 0) + ControlCount(operations[1..])
  }

  lemma {:induction false} ControlAppend(operations: seq<Operation>, operation: Operation)
    ensures ControlCount(operations + [operation]) == ControlCount(operations) + (if operation.control then 1 else 0)
    ensures ControlCount(operations) <= |operations|
  {
    if operations == [] {
      assert (operations + [operation])[1..] == [];
    } else {
      ControlAppend(operations[1..], operation);
      assert (operations + [operation])[1..] == operations[1..] + [operation];
    }
  }
}
