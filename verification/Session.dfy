// One game's authority: commands are cached, executed, committed, published and acknowledged.

module Sessions {
  import opened Board
  import opened GameModel

  type SessionId = string
  type ProfileId = string

  // The rules engine as the session sees it: the game state is a parameter.
  datatype Outcome<S> = Accepted(state: S) | Rejected(violation: Violation) | Threw

  datatype Rules<!S> = Rules(
    execute: (S, Envelope) -> Outcome<S>,
    version: S -> int,
    finished: S -> bool,
    decisionActor: S -> Option<PlayerId>)

  // On good states the engine never throws; an accepted command comes before the game is over,
  // named the current version and moves it on by exactly one, to a good state.
  ghost predicate Lawful<S(!new)>(rules: Rules<S>, good: S -> bool) {
    forall s, env {:trigger rules.execute(s, env)} :: good(s) ==>
      match rules.execute(s, env)
      case Accepted(next) =>
        && !rules.finished(s) && env.expectedStateVersion == rules.version(s)
        && rules.version(next) == rules.version(s) + 1 && good(next)
      case Rejected(_) => true
      case Threw => false
  }

  datatype Request = Request(roomCode: string, gameId: string, commandId: string, expectedStateVersion: int, command: Command)

  datatype CommandResult = CommandResult(accepted: bool, commandId: string, stateVersion: int, violation: Option<Violation>)

  // A fingerprint is an injective image of the request, so the request stands for it.
  datatype CacheEntry = CacheEntry(request: Request, result: CommandResult)

  datatype SeatPresence = SeatPresence(player: PlayerId, reconnectDeadlineMs: int, replacementRequired: bool)

  // What the durable record keeps of a game.
  datatype Game<S> = Game(
    state: S,
    publicationRevision: nat,
    humans: map<SessionId, PlayerId>,
    replacements: map<PlayerId, ProfileId>,
    aiPlayers: set<PlayerId>,
    disconnectedSeats: seq<SeatPresence>,
    abandonedDeadlineMs: Option<int>,
    cache: map<SessionId, seq<CacheEntry>>,
    aiCommandCount: nat,
    failed: bool)

  // Latches that live in memory only.
  datatype Latches = Latches(closed: bool, stopping: bool, transportPaused: bool)

  datatype Config<!S> = Config(
    roomCode: string, gameId: string, cacheLimit: nat, advanceLimit: nat, maxAiCommandsPerGame: nat, rules: Rules<S>)

  datatype Lifecycle = Closed | Finished | Error | PausedReplacementRequired | PausedReconnecting | Active

  // What members see of a game beside its state.
  datatype Presence = Presence(
    replacements: map<PlayerId, ProfileId>, disconnectedSeats: seq<SeatPresence>, abandonedDeadlineMs: Option<int>, failed: bool)

  function PresenceOf<S>(g: Game<S>): Presence {
    Presence(g.replacements, g.disconnectedSeats, g.abandonedDeadlineMs, g.failed)
  }

  function LifecycleOf<S>(rules: Rules<S>, state: S, presence: Presence): Lifecycle {
    if rules.finished(state) then Finished
    else if presence.failed then Error
    else if exists i :: 0 <= i < |presence.disconnectedSeats| && presence.disconnectedSeats[i].replacementRequired
    then PausedReplacementRequired
    else if presence.disconnectedSeats != [] then PausedReconnecting
    else Active
  }

  function LifecycleStatus<S>(rules: Rules<S>, g: Game<S>, closed: bool): Lifecycle {
    if closed then Closed else LifecycleOf(rules, g.state, PresenceOf(g))
  }

  datatype ErrorCode = GameBusy | GameUnavailable | NotRoomMember | GameNotFound | CommandIdConflict | RoomClosed | GamePaused | InternalError

  datatype Acknowledgement = Done(result: CommandResult) | Refused(error: ErrorCode)

  function FindEntry(entries: seq<CacheEntry>, commandId: string): Option<CacheEntry> {
    if entries == [] then None
    else if entries[0].request.commandId == commandId then Some(entries[0])
    else FindEntry(entries[1..], commandId)
  }

  function EntriesOf<S>(g: Game<S>, session: SessionId): seq<CacheEntry> {
    if session in g.cache then g.cache[session] else []
  }

  // Insertion order, oldest first; beyond the limit the oldest entry goes.
  function Remember(entries: seq<CacheEntry>, entry: CacheEntry, limit: nat): seq<CacheEntry> {
    var longer := entries + [entry];
    if |longer| > limit then longer[1..] else longer
  }

  datatype Handling<S> = Handling(game: Game<S>, acknowledgement: Acknowledgement, executed: bool, changed: bool)

  function Unchanged<S>(g: Game<S>, acknowledgement: Acknowledgement): Handling<S> {
    Handling(g, acknowledgement, false, false)
  }

  function EnvelopeOf<S>(g: Game<S>, session: SessionId, request: Request): Envelope
    requires session in g.humans
  {
    Envelope(g.humans[session], request.expectedStateVersion, request.command)
  }

  // The guards before the engine is asked; None when it is.
  function Guarded<S>(c: Config<S>, g: Game<S>, f: Latches, session: SessionId, request: Request): Option<Acknowledgement> {
    if f.stopping then Some(Refused(GameUnavailable))
    else if session !in g.humans then Some(Refused(NotRoomMember))
    else if request.roomCode != c.roomCode || request.gameId != c.gameId then Some(Refused(GameNotFound))
    else
      var cached := FindEntry(EntriesOf(g, session), request.commandId);
      if cached.Some? then
        Some(if cached.value.request == request then Done(cached.value.result) else Refused(CommandIdConflict))
      else if f.closed then Some(Refused(RoomClosed))
      else if || f.transportPaused
              || LifecycleStatus(c.rules, g, f.closed) == PausedReconnecting
              || LifecycleStatus(c.rules, g, f.closed) == PausedReplacementRequired then Some(Refused(GamePaused))
      else if g.failed then Some(Refused(GameUnavailable))
      else None
  }

  // What the engine's answer does to the game.
  function Recorded<S>(c: Config<S>, g: Game<S>, session: SessionId, request: Request, result: Outcome<S>): Handling<S>
    requires !result.Threw?
  {
    var state := if result.Accepted? then result.state else g.state;
    var data := CommandResult(result.Accepted?, request.commandId, c.rules.version(state),
                              if result.Rejected? then Some(result.violation) else None);
    var entries := Remember(EntriesOf(g, session), CacheEntry(request, data), c.cacheLimit);
    Handling(g.(state := state, cache := g.cache[session := entries]), Done(data), true, result.Accepted?)
  }

  // One request against the game. A throwing engine would leave the game alone.
  function HandleHuman<S>(c: Config<S>, g: Game<S>, f: Latches, session: SessionId, request: Request): Handling<S> {
    var guarded := Guarded(c, g, f, session, request);
    if guarded.Some? then Unchanged(g, guarded.value)
    else
      var result := c.rules.execute(g.state, EnvelopeOf(g, session, request));
      if result.Threw? then Unchanged(g, Refused(InternalError)) else Recorded(c, g, session, request, result)
  }

  // The copies taken when a commit is accepted: all that a snapshot may show.
  datatype Committed<S> = Committed(state: S, publicationRevision: nat, humans: map<SessionId, PlayerId>, presence: Presence)

  function CommittedOf<S>(g: Game<S>): Committed<S> {
    Committed(g.state, g.publicationRevision, g.humans, PresenceOf(g))
  }

  predicate IsAi<S>(g: Game<S>, p: PlayerId) {
    p in g.replacements || p in g.aiPlayers
  }

  datatype Origin = Origin(session: SessionId, request: Request)

  // One accepted command, and the request it came from unless the AI chose it.
  datatype Applied = Applied(env: Envelope, origin: Option<Origin>)

  // The AI moves only in an active game with an AI to decide.
  predicate AiToMove<S>(c: Config<S>, g: Game<S>, f: Latches) {
    && !f.stopping && !f.transportPaused && LifecycleStatus(c.rules, g, f.closed) == Active
    && c.rules.decisionActor(g.state).Some? && IsAi(g, c.rules.decisionActor(g.state).value)
  }

  datatype AiStepped<S> = AiStepped(game: Game<S>, applied: Option<Applied>)

  // One AI decision: a legal command is applied; no command, an illegal one or a spent budget
  // fails the game.
  function AiStep<S>(c: Config<S>, g: Game<S>, command: Option<Command>): AiStepped<S>
    requires c.rules.decisionActor(g.state).Some?
  {
    var failing := AiStepped(g.(failed := true), None);
    if command.None? || g.aiCommandCount >= c.maxAiCommandsPerGame then failing
    else
      var env := Envelope(c.rules.decisionActor(g.state).value, c.rules.version(g.state), command.value);
      var result := c.rules.execute(g.state, env);
      if result.Accepted?
      then AiStepped(g.(state := result.state, aiCommandCount := g.aiCommandCount + 1), Some(Applied(env, None)))
      else failing
  }

  predicate IsReplaceable<S>(c: Config<S>, g: Game<S>, f: Latches, session: SessionId) {
    && session in g.humans
    && LifecycleStatus(c.rules, g, f.closed) == PausedReplacementRequired
    && exists i :: 0 <= i < |g.disconnectedSeats| && g.disconnectedSeats[i].player == g.humans[session]
                   && g.disconnectedSeats[i].replacementRequired
  }

  function WithoutSeat(seats: seq<SeatPresence>, p: PlayerId): seq<SeatPresence> {
    if seats == [] then []
    else (if seats[0].player == p then [] else [seats[0]]) + WithoutSeat(seats[1..], p)
  }

  // An expired seat passes to the AI; its cached results go with it.
  function WithAiInSeat<S>(g: Game<S>, session: SessionId, profile: ProfileId): Game<S>
    requires session in g.humans
  {
    g.(humans := g.humans - {session}, replacements := g.replacements[g.humans[session] := profile],
       cache := g.cache - {session})
  }

  // Facts about one handled request.

  lemma {:induction false} FindIsStored(entries: seq<CacheEntry>, commandId: string)
    ensures FindEntry(entries, commandId).Some? ==>
              FindEntry(entries, commandId).value in entries && FindEntry(entries, commandId).value.request.commandId == commandId
    ensures FindEntry(entries, commandId).None? ==> forall i :: 0 <= i < |entries| ==> entries[i].request.commandId != commandId
  {
    if entries != [] {
      FindIsStored(entries[1..], commandId);
    }
  }

  // Exactly when a request reaches the engine and is recorded: for a seated Human of this game,
  // with a command ID not retained, while authority is up and the game neither failed nor,
  // unless it is over, waits for anybody.
  lemma ExecutesExactly<S>(c: Config<S>, g: Game<S>, f: Latches, session: SessionId, request: Request)
    ensures HandleHuman(c, g, f, session, request).executed <==>
              && session in g.humans && request.roomCode == c.roomCode && request.gameId == c.gameId
              && FindEntry(EntriesOf(g, session), request.commandId).None?
              && !f.stopping && !f.closed && !f.transportPaused && !g.failed
              && (c.rules.finished(g.state) || g.disconnectedSeats == [])
              && !c.rules.execute(g.state, Envelope(g.humans[session], request.expectedStateVersion, request.command)).Threw?
    ensures HandleHuman(c, g, f, session, request).changed ==> HandleHuman(c, g, f, session, request).executed
    ensures !HandleHuman(c, g, f, session, request).executed ==> HandleHuman(c, g, f, session, request).game == g
  {
    hide FindEntry, Remember;
    if g.disconnectedSeats != [] {
      var first := g.disconnectedSeats[0];
      assert first.replacementRequired ==> exists i :: 0 <= i < |g.disconnectedSeats| && g.disconnectedSeats[i].replacementRequired;
    }
  }

  // Whatever is refused is refused for a reason that holds; and what is answered without being
  // executed is an answer retained for this very request.
  lemma RefusalsAreTrue<S>(c: Config<S>, g: Game<S>, f: Latches, session: SessionId, request: Request)
    requires !HandleHuman(c, g, f, session, request).executed
    ensures match HandleHuman(c, g, f, session, request).acknowledgement
            case Done(result) => exists entry :: entry in EntriesOf(g, session) && entry.request == request && entry.result == result
            case Refused(GameUnavailable) => f.stopping || g.failed
            case Refused(NotRoomMember) => session !in g.humans
            case Refused(GameNotFound) => request.roomCode != c.roomCode || request.gameId != c.gameId
            case Refused(CommandIdConflict) =>
              exists entry :: entry in EntriesOf(g, session) && entry.request.commandId == request.commandId && entry.request != request
            case Refused(RoomClosed) => f.closed
            case Refused(GamePaused) => f.transportPaused || (!c.rules.finished(g.state) && g.disconnectedSeats != [])
            case Refused(InternalError) =>
              session in g.humans && c.rules.execute(g.state, Envelope(g.humans[session], request.expectedStateVersion, request.command)).Threw?
            case Refused(GameBusy) => false
  {
    FindIsStored(EntriesOf(g, session), request.commandId);
    hide FindEntry, Remember;
  }

  // As many of the entries as the limit allows, the newest ones, in their order.
  predicate AreNewest(kept: seq<CacheEntry>, all: seq<CacheEntry>, limit: nat) {
    && |kept| <= |all| && |kept| == (if |all| < limit then |all| else limit)
    && kept == all[|all| - |kept|..]
  }

  // What a request that reaches the engine does: it is executed as the player its session is
  // seated as, the engine's answer is the reply, and nothing but the state and the session's own
  // cache changes, which gains the answer and loses the oldest one beyond the limit.
  lemma ExecutedAsSeated<S>(c: Config<S>, g: Game<S>, f: Latches, session: SessionId, request: Request)
    requires HandleHuman(c, g, f, session, request).executed
    ensures session in g.humans
    ensures var handling := HandleHuman(c, g, f, session, request);
            var result := c.rules.execute(g.state, Envelope(g.humans[session], request.expectedStateVersion, request.command));
            && !result.Threw? && handling.changed == result.Accepted?
            && handling.game.state == (if result.Accepted? then result.state else g.state)
            && handling.acknowledgement == Done(CommandResult(result.Accepted?, request.commandId, c.rules.version(handling.game.state),
                                                              if result.Rejected? then Some(result.violation) else None))
            && handling.game == g.(state := handling.game.state, cache := handling.game.cache)
            && session in handling.game.cache && handling.game.cache == g.cache[session := handling.game.cache[session]]
            && (|EntriesOf(g, session)| <= c.cacheLimit ==>
                  AreNewest(handling.game.cache[session], EntriesOf(g, session) + [CacheEntry(request, handling.acknowledgement.result)],
                            c.cacheLimit))
  {
    hide FindEntry, LifecycleStatus;
  }

  // A retained request changes nothing; from a seated session of this game it gets the retained
  // answer, whatever the game waits for, unless authority is stopping.
  lemma RetainedIsReplayed<S>(c: Config<S>, g: Game<S>, f: Latches, session: SessionId, request: Request, entry: CacheEntry)
    requires FindEntry(EntriesOf(g, session), request.commandId) == Some(entry) && entry.request == request
    ensures var handling := HandleHuman(c, g, f, session, request);
            && handling.game == g && !handling.executed
            && handling.acknowledgement ==
                 if f.stopping then Refused(GameUnavailable)
                 else if session !in g.humans then Refused(NotRoomMember)
                 else if (request.roomCode, request.gameId) != (c.roomCode, c.gameId) then Refused(GameNotFound)
                 else Done(entry.result)
  {
  }

  // The AI moves exactly in an active game, for a player it plays or has replaced.
  lemma AiMovesExactly<S>(c: Config<S>, g: Game<S>, f: Latches)
    ensures AiToMove(c, g, f) <==>
              && !f.stopping && !f.transportPaused && !f.closed && !c.rules.finished(g.state) && !g.failed && g.disconnectedSeats == []
              && c.rules.decisionActor(g.state).Some?
              && (c.rules.decisionActor(g.state).value in g.aiPlayers || c.rules.decisionActor(g.state).value in g.replacements)
  {
    if g.disconnectedSeats != [] {
      var first := g.disconnectedSeats[0];
      assert first.replacementRequired ==> exists i :: 0 <= i < |g.disconnectedSeats| && g.disconnectedSeats[i].replacementRequired;
    }
  }

  // A move of the AI is made exactly if it found one, has moves left in this game, and the engine
  // accepts it from the player who has to decide; otherwise the game fails.
  lemma AiStepsExactly<S>(c: Config<S>, g: Game<S>, command: Option<Command>)
    requires c.rules.decisionActor(g.state).Some?
    ensures AiStep(c, g, command).applied.Some? <==>
              && command.Some? && g.aiCommandCount < c.maxAiCommandsPerGame
              && c.rules.execute(g.state, Envelope(c.rules.decisionActor(g.state).value, c.rules.version(g.state), command.value)).Accepted?
    ensures AiStep(c, g, command).applied.Some? ==>
              var env := Envelope(c.rules.decisionActor(g.state).value, c.rules.version(g.state), command.value);
              && AiStep(c, g, command).applied == Some(Applied(env, None))
              && AiStep(c, g, command).game == g.(state := c.rules.execute(g.state, env).state, aiCommandCount := g.aiCommandCount + 1)
    ensures AiStep(c, g, command).applied.None? ==> AiStep(c, g, command).game == g.(failed := true)
  {
  }

  // A seat can be replaced exactly if its Human's time is up, in a game neither closed nor over
  // nor failed.
  lemma ReplaceableExactly<S>(c: Config<S>, g: Game<S>, f: Latches, session: SessionId)
    ensures IsReplaceable(c, g, f, session) <==>
              && session in g.humans && !f.closed && !c.rules.finished(g.state) && !g.failed
              && exists seat :: seat in g.disconnectedSeats && seat.player == g.humans[session] && seat.replacementRequired
  {
    if session in g.humans {
      if seat :| seat in g.disconnectedSeats && seat.player == g.humans[session] && seat.replacementRequired {
        var i :| 0 <= i < |g.disconnectedSeats| && g.disconnectedSeats[i] == seat;
        assert g.disconnectedSeats[i].replacementRequired && g.disconnectedSeats[i].player == g.humans[session];
      }
    }
  }
}
