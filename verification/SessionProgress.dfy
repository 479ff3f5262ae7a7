// What the session authority gets done when nothing goes wrong: requests are executed, stored,
// shown and answered, and a server that went down comes back.

module SessionProgress {
  import opened Board
  import opened GameModel
  import opened Sessions
  import opened SessionRuns

  // Three steps one after another.
  function Thrice<S>(c: Config<S>, w: World<S>, first: Action, second: Action, third: Action): World<S> {
    Next(c, Next(c, Next(c, w, first), second), third)
  }

  // A request that the guards let through is executed in its session's name; when its commit
  // succeeds the record has the new state, members are shown it if it changed, and the session
  // gets the engine's answer, which the record retains.
  lemma RequestsAreServed<S>(c: Config<S>, w: World<S>, session: SessionId, request: Request)
    requires w.live.Some? && w.live.value.task.Idle? && c.cacheLimit >= 1
    requires |EntriesOf(w.live.value.game, session)| <= c.cacheLimit
    requires HandleHuman(c, w.live.value.game, w.live.value.latches, session, request).executed
    ensures session in w.live.value.game.humans
    ensures var p := w.live.value;
            var result := c.rules.execute(p.game.state, Envelope(p.game.humans[session], request.expectedStateVersion, request.command));
            var state := if result.Accepted? then result.state else p.game.state;
            var answer := CommandResult(result.Accepted?, request.commandId, c.rules.version(state),
                                        if result.Rejected? then Some(result.violation) else None);
            var served := Thrice(c, w, Deliver(session, request), CommitSucceeds, FinishReply);
            && served.replies == w.replies + [Reply(session, request, answer)]
            && served.live.Some? && served.live.value.task.Idle? && served.live.value.game == served.durable
            && served.live.value.latches == p.latches && served.live.value.committed.state == state
            && served.durable.state == state && CacheEntry(request, answer) in EntriesOf(served.durable, session)
            && served.shown == (if !result.Accepted? then w.shown
                                else w.shown + [Shown(p.game.publicationRevision + 1, state, PresenceOf(p.game), true)])
            && served.durableTrail.applied
               == (if !result.Accepted? then p.trail.applied
                   else p.trail.applied + [Applied(Envelope(p.game.humans[session], request.expectedStateVersion, request.command),
                                                   Some(Origin(session, request)))])
  {
    hide HandleHuman, LifecycleStatus, Remember, FindEntry;
    var p := w.live.value;
    ExecutedAsSeated(c, p.game, p.latches, session, request);
    var handling := HandleHuman(c, p.game, p.latches, session, request);
    var entries := EntriesOf(p.game, session) + [CacheEntry(request, handling.acknowledgement.result)];
    assert entries[|entries| - 1] in handling.game.cache[session];
  }

  // A move of the AI is stored and shown before anything else happens.
  lemma AiMovesAreShown<S>(c: Config<S>, w: World<S>, command: Command)
    requires w.live.Some? && !w.live.value.task.Committing? && AiToMove(c, w.live.value.game, w.live.value.latches)
    requires AiStep(c, w.live.value.game, Some(command)).applied.Some?
    ensures var p := w.live.value;
            var actor := c.rules.decisionActor(p.game.state).value;
            var result := c.rules.execute(p.game.state, Envelope(actor, c.rules.version(p.game.state), command));
            var moved := Next(c, Next(c, w, MoveAi(Some(command))), CommitSucceeds);
            && result.Accepted? && moved.durable.state == result.state && moved.live.Some? && moved.live.value.game == moved.durable
            && moved.shown == w.shown + [Shown(p.game.publicationRevision + 1, result.state, PresenceOf(p.game), true)]
            && moved.live.value.task == (match p.task case Replying(due) => Replying(due) case _ => Idle)
  {
    hide LifecycleStatus, AiStep;
    AiStepsExactly(c, w.live.value.game, Some(command));
  }

  // A changed presence is stored and shown, and lifts the pause of the transport; an unchanged one
  // only lifts the pause.
  lemma PresenceIsShown<S>(c: Config<S>, w: World<S>, seats: seq<SeatPresence>, deadline: Option<int>)
    requires w.live.Some? && w.live.value.task.Idle? && !w.live.value.latches.closed
    ensures var p := w.live.value;
            var changed := Next(c, Next(c, w, ChangePresence(seats, deadline)), CommitSucceeds);
            && changed.live.Some? && changed.live.value.task.Idle? && !changed.live.value.latches.transportPaused
            && (changed.live.value.game.disconnectedSeats, changed.live.value.game.abandonedDeadlineMs) == (seats, deadline)
            && changed.live.value.game.state == p.game.state
            && (if (seats, deadline) == (p.game.disconnectedSeats, p.game.abandonedDeadlineMs)
                then changed == w.(live := changed.live) && changed.live.value.game == p.game
                else changed.durable == changed.live.value.game
                     && changed.shown == w.shown + [Shown(p.game.publicationRevision + 1, p.game.state, PresenceOf(changed.durable), true)])
  {
  }

  // A seat that may be replaced passes to the AI, in the record and for everybody to see.
  lemma SeatsAreHandedOver<S>(c: Config<S>, w: World<S>, session: SessionId, profile: ProfileId)
    requires w.live.Some? && w.live.value.task.Idle? && IsReplaceable(c, w.live.value.game, w.live.value.latches, session)
    ensures var g := w.live.value.game;
            var passed := Next(c, Next(c, w, Replace(session, profile)), CommitSucceeds);
            && session in g.humans && passed.live.Some? && passed.live.value.game == passed.durable
            && passed.durable.state == g.state && passed.durable.humans == g.humans - {session}
            && passed.durable.replacements == g.replacements[g.humans[session] := profile] && session !in passed.durable.cache
            && (forall seat :: seat in passed.durable.disconnectedSeats <==> seat in g.disconnectedSeats && seat.player != g.humans[session])
            && passed.shown == w.shown + [Shown(g.publicationRevision + 1, g.state, PresenceOf(passed.durable), true)]
  {
    hide LifecycleStatus, WithoutSeat;
    SeatIsLeft(w.live.value.game.disconnectedSeats, w.live.value.game.humans[session]);
  }

  lemma {:induction false} SeatIsLeft(seats: seq<SeatPresence>, p: PlayerId)
    ensures forall seat :: seat in WithoutSeat(seats, p) <==> seat in seats && seat.player != p
  {
    if seats != [] {
      SeatIsLeft(seats[1..], p);
    }
  }

  // A server that went down comes back with the record, awake, and shows it to whoever asks.
  lemma ServerComesBack<S>(c: Config<S>, w: World<S>)
    requires w.live.None?
    ensures var back := Next(c, w, Recover);
            && back == w.(live := back.live) && back.live.Some? && back.live.value.game == w.durable && back.live.value.task.Idle?
            && back.live.value.trail == w.durableTrail
            && !back.live.value.latches.stopping && !back.live.value.latches.closed && !back.live.value.latches.transportPaused
            && Next(c, back, TakeSnapshot).shown
               == w.shown + [Shown(w.durable.publicationRevision, w.durable.state, PresenceOf(w.durable), false)]
  {
  }

  // What a crash leaves: the last commit, or the one that was being written.
  lemma CrashesLoseLittle<S>(c: Config<S>, w: World<S>, effect: bool)
    requires w.live.Some?
    ensures var down := Next(c, w, Halt(effect));
            && down.live.None? && down.replies == w.replies && down.shown == w.shown
            && (down.durable, down.durableTrail)
               == if effect && w.live.value.task.Committing? then (w.live.value.game, w.live.value.trail) else (w.durable, w.durableTrail)
  {
  }

  // Once authority stops, nobody is answered and nothing moves; while the transport is paused the
  // game stands still, and only retained answers are given.
  lemma PausedStandsStill<S>(c: Config<S>, w: World<S>, session: SessionId, request: Request, command: Option<Command>)
    requires w.live.Some?
    ensures var stopped := Next(c, w, Stop);
            && stopped.live == Some(w.live.value.(latches := w.live.value.latches.(stopping := true)))
            && Next(c, stopped, MoveAi(command)) == stopped && Next(c, stopped, Deliver(session, request)) == stopped
    ensures var paused := Next(c, w, PauseTransport);
            && paused.live == Some(w.live.value.(latches := w.live.value.latches.(transportPaused := true)))
            && Next(c, paused, MoveAi(command)) == paused
            && Next(c, paused, Deliver(session, request)).live == paused.live
            && (FindEntry(EntriesOf(w.live.value.game, session), request.commandId).None? ==>
                  Next(c, paused, Deliver(session, request)) == paused)
  {
    hide LifecycleStatus, FindEntry;
  }
}
