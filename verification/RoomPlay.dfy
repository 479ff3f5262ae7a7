// The two views of a running game agree: whatever the session authority does to a game is what
// the Room operations say play does to the game a Room stores.

module RoomPlay {
  import opened Board
  import opened GameModel
  import opened Sessions
  import opened SessionRuns
  import opened Rooms
  import opened RoomSteps

  // What the record keeps of cached results.
  function ResultsOf(entries: seq<CacheEntry>): seq<CachedResult> {
    seq(|entries|, i requires 0 <= i < |entries| => CachedResult(entries[i].result.commandId, entries[i].result.stateVersion))
  }

  // Results carry the command ID they are filed under.
  predicate WellFiled(entries: seq<CacheEntry>) {
    forall i :: 0 <= i < |entries| ==> entries[i].result.commandId == entries[i].request.commandId
  }

  ghost predicate SameCaches(cache: map<SessionId, seq<CacheEntry>>, view: map<SessionId, seq<CachedResult>>) {
    && view.Keys == cache.Keys
    && forall id :: id in cache ==> view[id] == ResultsOf(cache[id]) && WellFiled(cache[id])
  }

  // Players are numbered like the seats.
  ghost predicate SamePlayers(humans: map<SessionId, PlayerId>, game: RoomGame) {
    && (forall id :: id in humans ==> 0 <= humans[id] < |game.originalSeats| && IsPlayerAt(game, id, humans[id]))
    && (forall id, i: nat :: i < |game.originalSeats| && IsPlayerAt(game, id, i) ==> id in humans)
  }

  ghost predicate SameReplacements(replacements: map<PlayerId, ProfileId>, view: map<nat, ProfileId>) {
    && (forall p :: p in replacements ==> p >= 0)
    && (forall i: nat :: i in view <==> i in replacements)
    && (forall i: nat :: i in view ==> view[i] == replacements[i])
  }

  ghost predicate SamePresence(seats: seq<SeatPresence>, gone: seq<SeatGone>) {
    && |seats| == |gone|
    && forall k :: 0 <= k < |gone| ==>
         && seats[k].player == gone[k].seat && gone[k].deadline == Some(seats[k].reconnectDeadlineMs)
         && seats[k].replacementRequired == gone[k].replacementRequired
  }

  // The stored game is the authority's game, seen from the Room.
  ghost predicate Mirrors<S(!new)>(c: Config<S>, g: Game<S>, game: RoomGame) {
    && game.gameId == c.gameId && game.cacheLimit == c.cacheLimit
    && game.stateVersion == c.rules.version(g.state) && game.finished == c.rules.finished(g.state) && game.failed == g.failed
    && SamePlayers(g.humans, game) && SameReplacements(g.replacements, game.replacements)
    && SameCaches(g.cache, game.cache)
    && SamePresence(g.disconnectedSeats, game.disconnectedSeats) && g.abandonedDeadlineMs == game.abandonedDeadline
  }

  // Requests.

  lemma RememberedView(entries: seq<CacheEntry>, entry: CacheEntry, limit: nat)
    requires WellFiled(entries) && entry.result.commandId == entry.request.commandId
    ensures WellFiled(Remember(entries, entry, limit))
    ensures var longer := ResultsOf(entries) + [CachedResult(entry.result.commandId, entry.result.stateVersion)];
            ResultsOf(Remember(entries, entry, limit)) == if |longer| > limit then longer[1..] else longer
  {
  }

  lemma NewCommand(entries: seq<CacheEntry>, commandId: string)
    requires WellFiled(entries) && FindEntry(entries, commandId).None?
    ensures !HasCommand(ResultsOf(entries), commandId)
  {
    FindIsStored(entries, commandId);
  }

  function DeedOf<S>(c: Config<S>, session: SessionId, request: Request, handling: Handling<S>): Deed {
    HumanPlays(session, request.commandId, handling.changed, c.rules.finished(handling.game.state))
  }

  // A request that reaches the engine is a Human's deed, and the two views still agree.
  lemma RequestIsDeed<S(!new)>(c: Config<S>, good: S -> bool, g: Game<S>, f: Latches, game: RoomGame, session: SessionId, request: Request)
    requires Lawful(c.rules, good) && good(g.state) && Mirrors(c, g, game)
    requires HandleHuman(c, g, f, session, request).executed
    ensures var handling := HandleHuman(c, g, f, session, request);
            var deed := DeedOf(c, session, request, handling);
            Fits(game, deed) && Mirrors(c, handling.game, AfterDeed(game, deed))
  {
    hide LifecycleStatus, FindEntry, Remember, ResultsOf, SamePlayers, SameReplacements, SamePresence, HasCommand, IsPlayer;
    ExecutesExactly(c, g, f, session, request);
    var handling := HandleHuman(c, g, f, session, request);
    var entries := EntriesOf(g, session);
    assert WellFiled(entries);
    NewCommand(entries, request.commandId);
    RememberedView(entries, CacheEntry(request, handling.acknowledgement.result), c.cacheLimit);
    assert ResultsOf([]) == [] by {
      NothingViewed();
    }
    SeatedPlayer(g.humans, game, session);
    SamePlayersFrame(g.humans, game, AfterDeed(game, DeedOf(c, session, request, handling)));
  }

  lemma NothingViewed()
    ensures ResultsOf([]) == []
  {
  }

  lemma SeatedPlayer(humans: map<SessionId, PlayerId>, game: RoomGame, id: SessionId)
    requires SamePlayers(humans, game) && id in humans
    ensures IsPlayer(game, id)
  {
    assert IsPlayerAt(game, id, humans[id]);
  }

  lemma SamePlayersFrame(humans: map<SessionId, PlayerId>, game: RoomGame, after: RoomGame)
    requires SamePlayers(humans, game) && after.originalSeats == game.originalSeats && after.replacements == game.replacements
    ensures SamePlayers(humans, after)
  {
    forall id, i: nat | i < |after.originalSeats| && IsPlayerAt(after, id, i) ensures id in humans {
      assert IsPlayerAt(game, id, i);
    }
  }

  // AI moves.
  lemma AiStepIsDeed<S(!new)>(c: Config<S>, good: S -> bool, g: Game<S>, game: RoomGame, command: Option<Command>)
    requires Lawful(c.rules, good) && good(g.state) && Mirrors(c, g, game) && c.rules.decisionActor(g.state).Some?
    ensures var step := AiStep(c, g, command);
            Mirrors(c, step.game, AfterDeed(game, if step.applied.Some? then AiPlays(c.rules.finished(step.game.state)) else AiFails))
  {
    hide SameCaches, SamePlayers, SameReplacements, SamePresence;
    var step := AiStep(c, g, command);
    SamePlayersFrame(g.humans, game, AfterDeed(game, if step.applied.Some? then AiPlays(c.rules.finished(step.game.state)) else AiFails));
  }

  // Runs of play.

  ghost predicate FitAll(game: RoomGame, deeds: seq<Deed>)
    decreases |deeds|
  {
    deeds == [] || (FitAll(game, deeds[..|deeds| - 1]) && Fits(AfterDeeds(game, deeds[..|deeds| - 1]), deeds[|deeds| - 1]))
  }

  function AfterDeeds(game: RoomGame, deeds: seq<Deed>): RoomGame
    decreases |deeds|
  {
    if deeds == [] then game else AfterDeed(AfterDeeds(game, deeds[..|deeds| - 1]), deeds[|deeds| - 1])
  }

  lemma OneMoreDeed(game: RoomGame, deeds: seq<Deed>, deed: Deed)
    requires FitAll(game, deeds) && Fits(AfterDeeds(game, deeds), deed)
    ensures FitAll(game, deeds + [deed]) && AfterDeeds(game, deeds + [deed]) == AfterDeed(AfterDeeds(game, deeds), deed)
  {
    assert (deeds + [deed])[..|deeds + [deed]| - 1] == deeds;
  }

  // Between two Room operations the authority handles requests and moves the AI.
  predicate IsPlay(action: Action) {
    || action.Deliver? || action.MoveAi? || action.FinishReply? || action.SaveRoom? || action.CommitSucceeds?
    || action.TakeSnapshot? || action.PauseTransport? || action.Stop?
  }

  lemma StepIsPlay<S(!new)>(c: Config<S>, good: S -> bool, start: S, w: World<S>, action: Action, game: RoomGame)
    returns (deed: Option<Deed>)
    requires hide *; Lawful(c.rules, good) && WorldInv(c, good, start, w) && IsPlay(action)
    requires w.live.Some? && Mirrors(c, w.live.value.game, game)
    ensures deed.Some? ==> Fits(game, deed.value)
    ensures Next(c, w, action).live.Some?
    ensures Mirrors(c, Next(c, w, action).live.value.game, if deed.Some? then AfterDeed(game, deed.value) else game)
  {
    hide Lawful, LogsInv, CacheInv, HandleHuman, AiStep, AiMayMove, Fits, AfterDeed, Extends, Replay, Lengthened, SameCaches, SamePlayers,
      SameReplacements, SamePresence;
    var p := w.live.value;
    deed := None;
    if action.Deliver? && p.task.Idle? {
      var handling := HandleHuman(c, p.game, p.latches, action.session, action.request);
      if handling.executed {
        RequestIsDeed(c, good, p.game, p.latches, game, action.session, action.request);
        deed := Some(DeedOf(c, action.session, action.request, handling));
      }
    } else if action.MoveAi? && !p.task.Committing? && AiMayMove(c, p) {
      MayMoveDecides(c, p);
      AiStepIsDeed(c, good, p.game, game, action.command);
      var step := AiStep(c, p.game, action.command);
      deed := Some(if step.applied.Some? then AiPlays(c.rules.finished(step.game.state)) else AiFails);
      AiFits(game, deed.value);
    }
  }

  lemma MayMoveDecides<S>(c: Config<S>, p: Process<S>)
    requires AiMayMove(c, p)
    ensures c.rules.decisionActor(p.game.state).Some? && !c.rules.finished(p.game.state)
  {
  }

  lemma AiFits(game: RoomGame, deed: Deed)
    requires !deed.HumanPlays? && !game.finished
    ensures Fits(game, deed)
  {
  }

  // Whatever the authority does between two Room operations is a run of deeds on the stored
  // game: the versions, results and flags in the Room's record are those of the authority.
  lemma {:induction false} AuthorityPlaysDeeds<S(!new)>(
    c: Config<S>, good: S -> bool, start: S, w: World<S>, actions: seq<Action>, game: RoomGame) returns (deeds: seq<Deed>)
    requires Lawful(c.rules, good) && c.cacheLimit >= 1 && WorldInv(c, good, start, w)
    requires w.live.Some? && Mirrors(c, w.live.value.game, game)
    requires forall i :: 0 <= i < |actions| ==> IsPlay(actions[i])
    ensures FitAll(game, deeds)
    ensures Run(c, w, actions).live.Some?
    ensures Mirrors(c, Run(c, w, actions).live.value.game, AfterDeeds(game, deeds))
  {
    hide Lawful, WorldInv, Next, Mirrors, Fits, AfterDeed, FitAll, AfterDeeds;
    if actions == [] {
      deeds := [];
      NoDeeds(game);
    } else {
      var n := |actions| - 1;
      deeds := AuthorityPlaysDeeds(c, good, start, w, actions[..n], game);
      RunKeeps(c, good, start, w, actions[..n]);
      var deed := StepIsPlay(c, good, start, Run(c, w, actions[..n]), actions[n], AfterDeeds(game, deeds));
      if deed.Some? {
        OneMoreDeed(game, deeds, deed.value);
        deeds := deeds + [deed.value];
      }
    }
  }

  lemma NoDeeds(game: RoomGame)
    ensures FitAll(game, []) && AfterDeeds(game, []) == game
  {
  }

  // Room operations on the game.

  // The lifecycle the authority reports is the one the record validation computes.
  lemma SameLifecycle<S(!new)>(c: Config<S>, g: Game<S>, game: RoomGame)
    requires Mirrors(c, g, game)
    ensures match LifecycleStatus(c.rules, g, false)
            case Finished => PresenceLifecycle(game) == RecordFinished
            case Error => PresenceLifecycle(game) == RecordError
            case PausedReplacementRequired => PresenceLifecycle(game) == RecordPausedReplacement
            case PausedReconnecting => PresenceLifecycle(game) == RecordPausedReconnecting
            case Active => PresenceLifecycle(game) == RecordActive
            case Closed => false
  {
    var seats, gone := g.disconnectedSeats, game.disconnectedSeats;
    assert forall k :: 0 <= k < |gone| ==> seats[k].replacementRequired == gone[k].replacementRequired;
  }

  // Presence set from the Room's seats.
  lemma PresenceIsTheRooms<S(!new)>(
    c: Config<S>, g: Game<S>, game: RoomGame, seats: seq<SeatPresence>, gone: seq<SeatGone>, deadline: Option<int>)
    requires Mirrors(c, g, game) && SamePresence(seats, gone)
    ensures Mirrors(c, g.(disconnectedSeats := seats, abandonedDeadlineMs := deadline),
                    game.(disconnectedSeats := gone, abandonedDeadline := deadline))
  {
    hide SameCaches, SamePresence, SameReplacements, SamePlayers;
    SamePlayersFrame(g.humans, game, game.(disconnectedSeats := gone, abandonedDeadline := deadline));
  }

  // An expired Human whom the authority hands to the AI is the one the Room replaces.
  lemma ReplacementIsTheRooms<S(!new)>(
    c: Config<S>, g: Game<S>, game: RoomGame, seats: seq<Seat>, session: SessionId, i: nat, profile: ProfileId)
    requires Mirrors(c, g, game) && |seats| == SEATS && OriginalsValid(seats, game) && i < SEATS && IsPlayerAt(game, session, i)
    ensures session in g.humans && g.humans[session] == i
    ensures Mirrors(c, WithAiInSeat(g, session, profile),
                    game.(replacements := game.replacements[i := profile], cache := game.cache - {session}))
  {
    hide ResultsOf, WellFiled, SamePresence, SeatFollows;
    var replaced := game.(replacements := game.replacements[i := profile], cache := game.cache - {session});
    var after := WithAiInSeat(g, session, profile);
    forall id | id in after.humans
      ensures 0 <= after.humans[id] < |replaced.originalSeats| && IsPlayerAt(replaced, id, after.humans[id])
    {
      assert IsPlayerAt(game, id, g.humans[id]);
    }
    forall id, j: nat | j < |replaced.originalSeats| && IsPlayerAt(replaced, id, j) ensures id in after.humans {
      assert IsPlayerAt(game, id, j);
      assert game.originalSeats[i].session == session;
    }
  }

  // The game a Room starts is the one the authority opens: the Humans in their seats, nothing
  // replaced, cached or disconnected.
  lemma StartIsTheRooms<S(!new)>(c: Config<S>, g: Game<S>, seats: seq<Seat>)
    requires c.rules.version(g.state) == 0 && !c.rules.finished(g.state) && !g.failed
    requires g.replacements == map[] && g.cache == map[] && g.disconnectedSeats == [] && g.abandonedDeadlineMs.None?
    requires forall id :: id in g.humans ==>
               0 <= g.humans[id] < |seats| && seats[g.humans[id]].HumanSeat? && seats[g.humans[id]].session == id
    requires forall i: nat :: i < |seats| && seats[i].HumanSeat? ==> seats[i].session in g.humans
    ensures Mirrors(c, g, RoomGame(c.gameId, seats, map[], [], None, 0, false, false, c.cacheLimit, map[]))
  {
  }
}
