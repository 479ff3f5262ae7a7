// In whose name commands are executed, over runs of the session authority.

module SessionActors {
  import opened Board
  import opened GameModel
  import opened Sessions
  import opened SessionRuns

  // A Human's command is executed as the player the session was seated as when the game was opened,
  // an AI's as the player who had to decide, which the AI plays or has replaced.
  ghost predicate RightActor<S(!new)>(c: Config<S>, initial: Game<S>, replacements: map<PlayerId, ProfileId>, history: seq<Applied>, i: nat)
    requires i < |history|
  {
    var applied := history[i];
    match applied.origin
    case Some(origin) =>
      && origin.session in initial.humans && applied.env.actor == initial.humans[origin.session]
      && origin.request.roomCode == c.roomCode && origin.request.gameId == c.gameId
    case None =>
      && c.rules.decisionActor(Replay(c.rules, initial.state, history[..i])) == Some(applied.env.actor)
      && (applied.env.actor in initial.aiPlayers || applied.env.actor in replacements)
  }

  // Seats are only ever given up, and only a seated Human's is replaced; what is cached was asked
  // of this game.
  ghost predicate Descends<S(!new)>(c: Config<S>, initial: Game<S>, g: Game<S>) {
    && g.aiPlayers == initial.aiPlayers
    && (forall session :: session in g.humans ==> session in initial.humans && g.humans[session] == initial.humans[session])
    && (forall p :: p in g.replacements ==> p in initial.replacements || p in initial.humans.Values)
    && (forall session :: session in g.cache ==> AllOfGame(c.roomCode, c.gameId, g.cache[session]))
  }

  predicate AllOfGame(roomCode: string, gameId: string, entries: seq<CacheEntry>) {
    forall i :: 0 <= i < |entries| ==> entries[i].request.roomCode == roomCode && entries[i].request.gameId == gameId
  }

  function AiMoves(history: seq<Applied>): nat {
    if history == [] then 0
    else AiMoves(history[..|history| - 1]) + (if history[|history| - 1].origin.None? then 1 else 0)
  }

  // The game counts the moves of the AI and allows it no more than the limit.
  predicate CountsAi<S>(c: Config<S>, initial: Game<S>, g: Game<S>, history: seq<Applied>) {
    && g.aiCommandCount == initial.aiCommandCount + AiMoves(history)
    && (initial.aiCommandCount <= c.maxAiCommandsPerGame ==> g.aiCommandCount <= c.maxAiCommandsPerGame)
  }

  ghost predicate Acted<S(!new)>(c: Config<S>, initial: Game<S>, g: Game<S>, history: seq<Applied>) {
    && Descends(c, initial, g) && CountsAi(c, initial, g, history)
    && forall i: nat {:trigger RightActor(c, initial, g.replacements, history, i)} :: i < |history| ==>
         RightActor(c, initial, g.replacements, history, i)
  }

  ghost predicate ActorsInv<S(!new)>(c: Config<S>, initial: Game<S>, w: World<S>) {
    && Acted(c, initial, w.durable, w.durableTrail.applied)
    && (w.live.Some? ==> Acted(c, initial, w.live.value.game, w.live.value.trail.applied))
  }

  // A game that has only moved on, with a history that is the same or one command longer.
  lemma ActedStays<S(!new)>(c: Config<S>, initial: Game<S>, g: Game<S>, history: seq<Applied>, g': Game<S>, more: seq<Applied>)
    requires Acted(c, initial, g, history) && Descends(c, initial, g') && g.replacements.Keys <= g'.replacements.Keys
    requires CountsAi(c, initial, g', history + more)
    requires |more| <= 1 && (more != [] ==> RightActor(c, initial, g'.replacements, history + more, |history|))
    ensures Acted(c, initial, g', history + more)
  {
    var longer := history + more;
    forall i: nat | i < |longer| ensures RightActor(c, initial, g'.replacements, longer, i) {
      if i < |history| {
        assert RightActor(c, initial, g.replacements, history, i);
        assert longer[..i] == history[..i];
      }
    }
  }

  lemma AiMovesGrow(history: seq<Applied>, a: Applied)
    ensures AiMoves(history + [a]) == AiMoves(history) + (if a.origin.None? then 1 else 0)
    ensures AiMoves(history + []) == AiMoves(history)
  {
    assert (history + [a])[..|history + [a]| - 1] == history;
    assert history + [] == history;
  }

  lemma ReceivedActs<S(!new)>(c: Config<S>, initial: Game<S>, w: World<S>, session: SessionId, request: Request)
    requires hide *; w.live.Some? && Acted(c, initial, w.live.value.game, w.live.value.trail.applied)
    requires HandleHuman(c, w.live.value.game, w.live.value.latches, session, request).executed
    ensures var w' := Received(c, w, session, request);
            w'.live.Some? && Acted(c, initial, w'.live.value.game, w'.live.value.trail.applied)
  {
    hide Replay, LifecycleStatus, FindEntry, HandleHuman;
    var p, p' := w.live.value, Received(c, w, session, request).live.value;
    var handling := HandleHuman(c, p.game, p.latches, session, request);
    ExecutesExactly(c, p.game, p.latches, session, request);
    ExecutedAsSeated(c, p.game, p.latches, session, request);
    RecordedIsOfGame(c, p.game, p.latches, session, request);
    var more := if handling.changed then [Applied(EnvelopeOf(p.game, session, request), Some(Origin(session, request)))] else [];
    AiMovesGrow(p.trail.applied, Applied(EnvelopeOf(p.game, session, request), Some(Origin(session, request))));
    ActedStays(c, initial, p.game, p.trail.applied, p'.game, more);
  }

  lemma RecordedIsOfGame<S>(c: Config<S>, g: Game<S>, f: Latches, session: SessionId, request: Request)
    requires hide *; HandleHuman(c, g, f, session, request).executed && AllOfGame(c.roomCode, c.gameId, EntriesOf(g, session))
    ensures var game := HandleHuman(c, g, f, session, request).game;
            session in game.cache && AllOfGame(c.roomCode, c.gameId, game.cache[session])
  {
    hide LifecycleStatus, FindEntry;
  }

  lemma AiActs<S(!new)>(c: Config<S>, initial: Game<S>, w: World<S>, command: Option<Command>)
    requires hide *; w.live.Some? && AiMayMove(c, w.live.value) && Acted(c, initial, w.live.value.game, w.live.value.trail.applied)
    requires w.live.value.game.state == Replay(c.rules, initial.state, w.live.value.trail.applied)
    ensures var w' := AiMoved(c, w, command);
            && w'.live.Some? && Acted(c, initial, w'.live.value.game, w'.live.value.trail.applied)
            && w'.durable == w.durable && w'.durableTrail == w.durableTrail
  {
    hide Replay, LifecycleStatus;
    var p, p' := w.live.value, AiMoved(c, w, command).live.value;
    AiMovesExactly(c, p.game, p.latches);
    var step := AiStep(c, p.game, command);
    var more := if step.applied.Some? then [step.applied.value] else [];
    assert (p.trail.applied + more)[..|p.trail.applied|] == p.trail.applied;
    AiStepsExactly(c, p.game, command);
    if step.applied.Some? {
      AiMovesGrow(p.trail.applied, step.applied.value);
    } else {
      assert p.trail.applied + more == p.trail.applied;
    }
    ActedStays(c, initial, p.game, p.trail.applied, p'.game, more);
  }

  lemma ReplacedActs<S(!new)>(c: Config<S>, initial: Game<S>, p: Process<S>, session: SessionId, profile: ProfileId)
    requires hide *; MayReplace(c, p, session) && Acted(c, initial, p.game, p.trail.applied)
    ensures session in p.game.humans
    ensures Acted(c, initial, Replaced(p, session, profile).game, Replaced(p, session, profile).trail.applied)
  {
    hide Replay, RightActor, WithoutSeat, AllOfGame;
    ReplaceableExactly(c, p.game, p.latches, session);
    assert p.trail.applied + [] == p.trail.applied;
    ActedStays(c, initial, p.game, p.trail.applied, Replaced(p, session, profile).game, []);
  }

  lemma StepActs<S(!new)>(c: Config<S>, good: S -> bool, initial: Game<S>, w: World<S>, action: Action)
    requires hide *; WorldInv(c, good, initial.state, w) && ActorsInv(c, initial, w)
    ensures ActorsInv(c, initial, Next(c, w, action))
  {
    hide Acted, CacheInv, LogsInv, HandleHuman, AiMayMove, MayReplace, Replay, Replaced, AiMoved;
    if w.live.Some? {
      var p := w.live.value;
      match action {
        case Deliver(session, request) =>
          if p.task.Idle? && HandleHuman(c, p.game, p.latches, session, request).executed {
            ReceivedActs(c, initial, w, session, request);
          }
        case MoveAi(command) => if !p.task.Committing? && AiMayMove(c, p) { AiActs(c, initial, w, command); }
        case ChangePresence(_, _) => SameActors(c, initial, p, Next(c, w, action));
        case Replace(session, profile) =>
          if p.task.Idle? && MayReplace(c, p, session) { ReplacedActs(c, initial, p, session, profile); }
        case _ =>
      }
    }
  }

  lemma SameActors<S(!new)>(c: Config<S>, initial: Game<S>, p: Process<S>, w': World<S>)
    requires Acted(c, initial, p.game, p.trail.applied) && w'.live.Some? && w'.live.value.trail == p.trail
    requires var g, g' := p.game, w'.live.value.game;
             && (g'.aiPlayers, g'.humans, g'.replacements, g'.cache) == (g.aiPlayers, g.humans, g.replacements, g.cache)
             && g'.aiCommandCount == g.aiCommandCount
    ensures Acted(c, initial, w'.live.value.game, w'.live.value.trail.applied)
  {
    hide RightActor;
    assert p.trail.applied + [] == p.trail.applied;
    ActedStays(c, initial, p.game, p.trail.applied, w'.live.value.game, []);
  }

  lemma {:induction false} RunActs<S(!new)>(c: Config<S>, good: S -> bool, initial: Game<S>, actions: seq<Action>)
    requires hide *; Lawful(c.rules, good) && c.cacheLimit >= 1 && good(initial.state) && initial.cache == map[]
    ensures ActorsInv(c, initial, Run(c, Opened(initial), actions)) && WorldInv(c, good, initial.state, Run(c, Opened(initial), actions))
  {
    hide Lawful, WorldInv, Next, RightActor;
    OpenedKeeps(c, good, initial, actions);
    if actions != [] {
      RunActs(c, good, initial, actions[..|actions| - 1]);
      hide ActorsInv;
      StepActs(c, good, initial, Run(c, Opened(initial), actions[..|actions| - 1]), actions[|actions| - 1]);
    }
  }

  // On every run each command in the durable history, and in the one of the live game, was
  // executed in the right name, and the AI has not moved more often than it may.
  lemma EveryoneActsAsSeated<S(!new)>(c: Config<S>, good: S -> bool, initial: Game<S>, actions: seq<Action>)
    requires Lawful(c.rules, good) && c.cacheLimit >= 1 && good(initial.state) && initial.cache == map[]
    ensures var w := Run(c, Opened(initial), actions);
            && CountsAi(c, initial, w.durable, w.durableTrail.applied)
            && (forall i: nat {:trigger w.durableTrail.applied[i]} :: i < |w.durableTrail.applied| ==>
                  RightActor(c, initial, w.durable.replacements, w.durableTrail.applied, i))
            && (w.live.Some? ==>
                  forall i: nat {:trigger w.live.value.trail.applied[i]} :: i < |w.live.value.trail.applied| ==>
                    RightActor(c, initial, w.live.value.game.replacements, w.live.value.trail.applied, i))
  {
    hide Lawful, Run, Opened, RightActor, Descends;
    RunActs(c, good, initial, actions);
  }

  // On every run a request whose entry is in memory is answered from it while authority is up.
  lemma RetainedIsAnswered<S(!new)>(
    c: Config<S>, good: S -> bool, initial: Game<S>, actions: seq<Action>, session: SessionId, request: Request, entry: CacheEntry)
    requires Lawful(c.rules, good) && c.cacheLimit >= 1 && good(initial.state) && initial.cache == map[]
    requires var w := Run(c, Opened(initial), actions);
             && w.live.Some? && !w.live.value.latches.stopping && w.live.value.task.Idle?
             && FindEntry(EntriesOf(w.live.value.game, session), request.commandId) == Some(entry) && entry.request == request
    ensures var w := Run(c, Opened(initial), actions);
            Next(c, w, Deliver(session, request)) == w.(replies := w.replies + [Reply(session, request, entry.result)])
  {
    hide Lawful, Run, Opened, RightActor, HistoryInv, LogsInv, HandleHuman, FindEntry, EntriesInv;
    RunActs(c, good, initial, actions);
    var w := Run(c, Opened(initial), actions);
    var g := w.live.value.game;
    FindIsStored(EntriesOf(g, session), request.commandId);
    RetainedIsReplayed(c, g, w.live.value.latches, session, request, entry);
  }
}
