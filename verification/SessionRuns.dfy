// Runs of the session authority: requests, duplicates, AI moves, commits that fail with an
// uncertain outcome, crashes, recoveries and evictions, in any order.

module SessionRuns {
  import opened Board
  import opened GameModel
  import opened Sessions

  datatype Reply = Reply(session: SessionId, request: Request, result: CommandResult)

  // What left the server: a publication, or a snapshot somebody asked for.
  datatype Shown<S> = Shown(revision: nat, state: S, presence: Presence, published: bool)

  // The queue runs one operation at a time; an operation may be waiting for its commit, or
  // for AI moves that run before its reply.
  datatype Task = Idle | Committing(reply: Option<Reply>, publish: bool) | Replying(due: Reply)

  // What a commit carries along: the commands applied so far and the answers recorded so far,
  // oldest first.
  datatype Trail = Trail(applied: seq<Applied>, answered: seq<Reply>)

  predicate Extends(trail: Trail, longer: Trail) {
    trail.applied <= longer.applied && trail.answered <= longer.answered
  }

  datatype Process<S> = Process(game: Game<S>, committed: Committed<S>, latches: Latches, task: Task, trail: Trail)

  datatype World<S> = World(
    live: Option<Process<S>>,
    durable: Game<S>,
    durableTrail: Trail,
    replies: seq<Reply>,
    shown: seq<Shown<S>>)

  datatype Action =
    | Deliver(session: SessionId, request: Request)
    | MoveAi(command: Option<Command>)
    | FinishReply
    | ChangePresence(seats: seq<SeatPresence>, deadline: Option<int>)
    | Replace(replaced: SessionId, profile: ProfileId)
    | SaveRoom
    | CommitSucceeds
    | Halt(effect: bool)
    | TakeSnapshot
    | PauseTransport
    | Stop
    | Recover

  const AWAKE := Latches(false, false, false)

  function ReplyOf(task: Task): Option<Reply> {
    match task
    case Idle => None
    case Committing(reply, _) => reply
    case Replying(due) => Some(due)
  }

  function Lengthened<S>(p: Process<S>, session: SessionId, request: Request, handling: Handling<S>): Trail
    requires handling.acknowledgement.Done? && session in p.game.humans
  {
    Trail(p.trail.applied + (if handling.changed then [Applied(EnvelopeOf(p.game, session, request), Some(Origin(session, request)))] else []),
          p.trail.answered + [Reply(session, request, handling.acknowledgement.result)])
  }

  // A request whose turn in the queue has come.
  function Received<S>(c: Config<S>, w: World<S>, session: SessionId, request: Request): World<S>
    requires w.live.Some?
  {
    var p := w.live.value;
    var handling := HandleHuman(c, p.game, p.latches, session, request);
    if !handling.executed then
      if handling.acknowledgement.Done?
      then w.(replies := w.replies + [Reply(session, request, handling.acknowledgement.result)])
      else w
    else
      assert session in p.game.humans;
      var reply := Reply(session, request, handling.acknowledgement.result);
      var trail := Lengthened(p, session, request, handling);
      if handling.changed then
        w.(live := Some(p.(game := handling.game.(publicationRevision := handling.game.publicationRevision + 1),
                           task := Committing(Some(reply), true), trail := trail)))
      else w.(live := Some(p.(game := handling.game, task := Committing(Some(reply), false), trail := trail)))
  }

  predicate AiMayMove<S>(c: Config<S>, p: Process<S>) {
    AiToMove(c, p.game, p.latches)
  }

  function AiMoved<S>(c: Config<S>, w: World<S>, command: Option<Command>): World<S>
    requires w.live.Some? && AiMayMove(c, w.live.value)
  {
    var p := w.live.value;
    var step := AiStep(c, p.game, command);
    w.(live := Some(p.(
      game := step.game.(publicationRevision := step.game.publicationRevision + 1),
      task := Committing(ReplyOf(p.task), true),
      trail := p.trail.(applied := p.trail.applied + (if step.applied.Some? then [step.applied.value] else [])))))
  }

  predicate MayReplace<S>(c: Config<S>, p: Process<S>, session: SessionId) {
    IsReplaceable(c, p.game, p.latches, session)
  }

  function Replaced<S>(p: Process<S>, session: SessionId, profile: ProfileId): Process<S>
    requires session in p.game.humans
  {
    var game := WithAiInSeat(p.game, session, profile);
    p.(game := game.(disconnectedSeats := WithoutSeat(game.disconnectedSeats, p.game.humans[session]),
                     publicationRevision := game.publicationRevision + 1),
       task := Committing(None, true))
  }

  // The durable transaction has returned: accept the commit, then publish, then reply.
  function Saved<S>(w: World<S>): World<S>
    requires w.live.Some? && w.live.value.task.Committing?
  {
    var p := w.live.value;
    var reply := p.task.reply;
    var shown := if p.task.publish then w.shown + [Shown(p.game.publicationRevision, p.game.state, PresenceOf(p.game), true)] else w.shown;
    var replies := if reply.Some? && !p.task.publish then w.replies + [reply.value] else w.replies;
    var task := if reply.Some? && p.task.publish then Replying(reply.value) else Idle;
    w.(live := Some(p.(committed := CommittedOf(p.game), task := task)), durable := p.game, durableTrail := p.trail,
       shown := shown, replies := replies)
  }

  // One step; an action that is not enabled does nothing.
  function Next<S>(c: Config<S>, w: World<S>, action: Action): World<S> {
    if w.live.None? then
      if action.Recover?
      then w.(live := Some(Process(w.durable, CommittedOf(w.durable), AWAKE, Idle, w.durableTrail)))
      else w
    else
      var p := w.live.value;
      match action
      case Deliver(session, request) => if p.task.Idle? then Received(c, w, session, request) else w
      case MoveAi(command) => if !p.task.Committing? && AiMayMove(c, p) then AiMoved(c, w, command) else w
      case FinishReply =>
        if p.task.Replying? then w.(replies := w.replies + [p.task.due], live := Some(p.(task := Idle))) else w
      case ChangePresence(seats, deadline) =>
        if !p.task.Idle? || p.latches.closed then w
        else if seats == p.game.disconnectedSeats && deadline == p.game.abandonedDeadlineMs then
          w.(live := Some(p.(latches := p.latches.(transportPaused := false))))
        else
          w.(live := Some(p.(
            game := p.game.(disconnectedSeats := seats, abandonedDeadlineMs := deadline,
                            publicationRevision := p.game.publicationRevision + 1),
            latches := p.latches.(transportPaused := false), task := Committing(None, true))))
      case Replace(session, profile) =>
        if p.task.Idle? && MayReplace(c, p, session) then w.(live := Some(Replaced(p, session, profile))) else w
      case SaveRoom => if p.task.Idle? then w.(live := Some(p.(task := Committing(None, false)))) else w
      case CommitSucceeds => if p.task.Committing? then Saved(w) else w
      // A crash, or a failed commit: authority stops, and a write in flight may or may not have happened.
      case Halt(effect) =>
        if p.task.Committing? && effect then w.(live := None, durable := p.game, durableTrail := p.trail)
        else w.(live := None)
      case TakeSnapshot =>
        w.(shown := w.shown + [Shown(p.committed.publicationRevision, p.committed.state, p.committed.presence, false)])
      case PauseTransport => w.(live := Some(p.(latches := p.latches.(transportPaused := true))))
      case Stop => w.(live := Some(p.(latches := p.latches.(stopping := true))))
      case Recover => w
  }

  function Run<S>(c: Config<S>, w: World<S>, actions: seq<Action>): World<S> {
    if actions == [] then w else Next(c, Run(c, w, actions[..|actions| - 1]), actions[|actions| - 1])
  }

  // The game state that a history of commands leads to.
  function Replay<S>(rules: Rules<S>, start: S, history: seq<Applied>): S {
    if history == [] then start
    else
      var before := Replay(rules, start, history[..|history| - 1]);
      var result := rules.execute(before, history[|history| - 1].env);
      if result.Accepted? then result.state else before
  }

  // The invariant.

  // Command i of a history expected version start + i, so no request can occur twice.
  ghost predicate HistoryInv<S(!new)>(rules: Rules<S>, good: S -> bool, start: S, state: S, history: seq<Applied>) {
    && good(state) && state == Replay(rules, start, history)
    && rules.version(state) == rules.version(start) + |history|
    && (forall i :: 0 <= i < |history| ==>
          && history[i].env.expectedStateVersion == rules.version(start) + i
          && (history[i].origin.Some? ==>
                && history[i].origin.value.request.expectedStateVersion == rules.version(start) + i
                && history[i].origin.value.request.command == history[i].env.command))
  }

  // A result is one of the recorded answers and names a version the history has reached; an
  // accepted one names the position its request took.
  predicate Backed(start: int, trail: Trail, session: SessionId, request: Request, result: CommandResult) {
    && result.commandId == request.commandId
    && Reply(session, request, result) in trail.answered
    && 0 <= result.stateVersion - start <= |trail.applied|
    && (result.accepted ==>
          && result.stateVersion > start
          && trail.applied[result.stateVersion - start - 1].origin == Some(Origin(session, request)))
  }

  ghost predicate EntriesInv(start: int, trail: Trail, session: SessionId, entries: seq<CacheEntry>, limit: nat) {
    && |entries| <= limit
    && (forall i :: 0 <= i < |entries| ==> Backed(start, trail, session, entries[i].request, entries[i].result))
    && (forall i, j :: 0 <= i < j < |entries| ==> entries[i].request.commandId != entries[j].request.commandId)
  }

  // Only Humans of the game have results cached.
  ghost predicate CacheInv<S(!new)>(start: int, trail: Trail, g: Game<S>, limit: nat) {
    && g.cache.Keys <= g.humans.Keys
    && forall session :: session in g.cache ==> EntriesInv(start, trail, session, g.cache[session], limit)
  }

  predicate ReplyInv(start: int, trail: Trail, reply: Reply) {
    Backed(start, trail, reply.session, reply.request, reply.result)
  }

  // Shown state is a prefix of the durable history, replayed; under the durable revision, what is
  // shown beside it is what the record has.
  ghost predicate ShownInv<S(!new)>(rules: Rules<S>, start: S, durable: Game<S>, history: seq<Applied>, shown: Shown<S>) {
    && shown.revision <= durable.publicationRevision
    && (shown.revision == durable.publicationRevision ==> shown.presence == PresenceOf(durable))
    && 0 <= rules.version(shown.state) - rules.version(start) <= |history|
    && shown.state == Replay(rules, start, history[..rules.version(shown.state) - rules.version(start)])
  }

  ghost predicate GameInv<S(!new)>(c: Config<S>, good: S -> bool, start: S, g: Game<S>, trail: Trail) {
    && HistoryInv(c.rules, good, start, g.state, trail.applied)
    && CacheInv(c.rules.version(start), trail, g, c.cacheLimit)
  }

  ghost predicate ProcessInv<S(!new)>(c: Config<S>, good: S -> bool, start: S, w: World<S>, p: Process<S>) {
    && GameInv(c, good, start, p.game, p.trail)
    && p.committed == CommittedOf(w.durable)
    && Extends(w.durableTrail, p.trail)
    && (if p.task.Committing? then
          && p.game.publicationRevision == w.durable.publicationRevision + (if p.task.publish then 1 else 0)
          && (!p.task.publish ==> PresenceOf(p.game) == PresenceOf(w.durable))
        else p.game == w.durable && p.trail == w.durableTrail)
    && (ReplyOf(p.task).Some? ==> ReplyInv(c.rules.version(start), p.trail, ReplyOf(p.task).value))
  }

  ghost predicate LogsInv<S(!new)>(c: Config<S>, start: S, w: World<S>) {
    && (forall i :: 0 <= i < |w.replies| ==> ReplyInv(c.rules.version(start), w.durableTrail, w.replies[i]))
    && (forall i :: 0 <= i < |w.shown| ==> ShownInv(c.rules, start, w.durable, w.durableTrail.applied, w.shown[i]))
    && InOrder(c.rules, w.shown)
  }

  // Revisions and versions never fall, every publication raises the revision, and a revision
  // stands for one presence.
  ghost predicate InOrder<S(!new)>(rules: Rules<S>, shown: seq<Shown<S>>) {
    forall i, j :: 0 <= i < j < |shown| ==>
      && shown[i].revision <= shown[j].revision && rules.version(shown[i].state) <= rules.version(shown[j].state)
      && (shown[j].published ==> shown[i].revision < shown[j].revision)
      && (shown[i].revision == shown[j].revision ==> shown[i].presence == shown[j].presence)
  }

  ghost predicate WorldInv<S(!new)>(c: Config<S>, good: S -> bool, start: S, w: World<S>) {
    && GameInv(c, good, start, w.durable, w.durableTrail)
    && (w.live.Some? ==> ProcessInv(c, good, start, w, w.live.value))
    && LogsInv(c, start, w)
  }

  // Preservation.

  lemma ReplayStep<S>(rules: Rules<S>, start: S, history: seq<Applied>, a: Applied)
    ensures var before := Replay(rules, start, history);
            var result := rules.execute(before, a.env);
            Replay(rules, start, history + [a]) == if result.Accepted? then result.state else before
  {
    assert (history + [a])[..|history + [a]| - 1] == history;
  }

  lemma HistoryStep<S(!new)>(rules: Rules<S>, good: S -> bool, start: S, state: S, history: seq<Applied>, a: Applied)
    requires Lawful(rules, good) && HistoryInv(rules, good, start, state, history)
    requires rules.execute(state, a.env).Accepted?
    requires a.origin.Some? ==>
               a.origin.value.request.expectedStateVersion == a.env.expectedStateVersion
               && a.origin.value.request.command == a.env.command
    ensures HistoryInv(rules, good, start, rules.execute(state, a.env).state, history + [a])
  {
    hide Replay;
    ReplayStep(rules, start, history, a);
  }

  lemma BackedGrows(start: int, trail: Trail, longer: Trail, session: SessionId, request: Request, result: CommandResult)
    requires Backed(start, trail, session, request, result) && Extends(trail, longer)
    ensures Backed(start, longer, session, request, result)
  {
  }

  lemma CacheGrows<S(!new)>(start: int, trail: Trail, longer: Trail, g: Game<S>, limit: nat)
    requires CacheInv(start, trail, g, limit) && Extends(trail, longer)
    ensures CacheInv(start, longer, g, limit)
  {
    forall session | session in g.cache ensures EntriesInv(start, longer, session, g.cache[session], limit) {
      var entries := g.cache[session];
      assert EntriesInv(start, trail, session, entries, limit);
      forall i | 0 <= i < |entries| ensures Backed(start, longer, session, entries[i].request, entries[i].result) {
        BackedGrows(start, trail, longer, session, entries[i].request, entries[i].result);
      }
    }
  }

  lemma EntriesRemember(start: int, trail: Trail, session: SessionId, entries: seq<CacheEntry>, entry: CacheEntry, limit: nat)
    requires limit >= 1 && EntriesInv(start, trail, session, entries, limit)
    requires Backed(start, trail, session, entry.request, entry.result)
    requires FindEntry(entries, entry.request.commandId).None?
    ensures EntriesInv(start, trail, session, Remember(entries, entry, limit), limit)
  {
    FindIsStored(entries, entry.request.commandId);
  }

  // A later record of a game: its revision is no lower, and under the same one nothing else that
  // members see has changed.
  predicate Supersedes<S>(later: Game<S>, g: Game<S>) {
    || g.publicationRevision < later.publicationRevision
    || (g.publicationRevision == later.publicationRevision && PresenceOf(g) == PresenceOf(later))
  }

  lemma ShownStays<S(!new)>(
    rules: Rules<S>, start: S, durable: Game<S>, history: seq<Applied>, later: Game<S>, longer: seq<Applied>, shown: Shown<S>)
    requires ShownInv(rules, start, durable, history, shown)
    requires history <= longer && Supersedes(later, durable)
    ensures ShownInv(rules, start, later, longer, shown)
  {
    var k := rules.version(shown.state) - rules.version(start);
    assert longer[..k] == history[..k];
  }

  lemma DurableIsShown<S(!new)>(c: Config<S>, good: S -> bool, start: S, g: Game<S>, trail: Trail)
    requires GameInv(c, good, start, g, trail)
    ensures forall published :: ShownInv(c.rules, start, g, trail.applied, Shown(g.publicationRevision, g.state, PresenceOf(g), published))
    ensures c.rules.version(g.state) - c.rules.version(start) == |trail.applied|
  {
    assert trail.applied[..|trail.applied|] == trail.applied;
  }

  lemma RecordedInv<S(!new)>(c: Config<S>, good: S -> bool, start: S, p: Process<S>, session: SessionId, request: Request)
    requires Lawful(c.rules, good) && c.cacheLimit >= 1 && GameInv(c, good, start, p.game, p.trail)
    requires HandleHuman(c, p.game, p.latches, session, request).executed
    ensures session in p.game.humans && HandleHuman(c, p.game, p.latches, session, request).acknowledgement.Done?
    ensures var handling := HandleHuman(c, p.game, p.latches, session, request);
            var longer := Lengthened(p, session, request, handling);
            && GameInv(c, good, start, handling.game, longer) && Extends(p.trail, longer)
            && Backed(c.rules.version(start), longer, session, request, handling.acknowledgement.result)
            && handling.game.publicationRevision == p.game.publicationRevision && PresenceOf(handling.game) == PresenceOf(p.game)
  {
    hide Replay, LifecycleStatus;
    var g := p.game;
    var result := c.rules.execute(g.state, EnvelopeOf(g, session, request));
    var handling := HandleHuman(c, g, p.latches, session, request);
    var longer := Lengthened(p, session, request, handling);
    if result.Accepted? {
      HistoryStep(c.rules, good, start, g.state, p.trail.applied, Applied(EnvelopeOf(g, session, request), Some(Origin(session, request))));
    } else {
      assert p.trail.applied + [] == p.trail.applied;
    }
    var base := c.rules.version(start);
    CacheGrows(base, p.trail, longer, g, c.cacheLimit);
    EntriesRemember(base, longer, session, EntriesOf(g, session), CacheEntry(request, handling.acknowledgement.result), c.cacheLimit);
  }

  lemma CachedIsBacked<S(!new)>(c: Config<S>, good: S -> bool, start: S, g: Game<S>, f: Latches, trail: Trail,
                                session: SessionId, request: Request)
    requires GameInv(c, good, start, g, trail)
    requires !HandleHuman(c, g, f, session, request).executed
    requires HandleHuman(c, g, f, session, request).acknowledgement.Done?
    ensures Backed(c.rules.version(start), trail, session, request, HandleHuman(c, g, f, session, request).acknowledgement.result)
  {
    hide HistoryInv, LifecycleStatus;
    FindIsStored(EntriesOf(g, session), request.commandId);
  }

  // New logs only ever extend the old ones.
  lemma ReceivedKeeps<S(!new)>(c: Config<S>, good: S -> bool, start: S, w: World<S>, session: SessionId, request: Request)
    requires hide *; Lawful(c.rules, good) && c.cacheLimit >= 1 && WorldInv(c, good, start, w)
    requires w.live.Some? && w.live.value.task.Idle?
    ensures WorldInv(c, good, start, Received(c, w, session, request))
  {
    hide HistoryInv, CacheInv, Replay, HandleHuman, Lawful, ShownInv, Backed;
    var p := w.live.value;
    var handling := HandleHuman(c, p.game, p.latches, session, request);
    if handling.executed {
      RecordedInv(c, good, start, p, session, request);
      var p' := Received(c, w, session, request).live.value;
      SameCache(c.rules.version(start), p'.trail, handling.game, p'.game, c.cacheLimit);
    } else if handling.acknowledgement.Done? {
      CachedIsBacked(c, good, start, p.game, p.latches, p.trail, session, request);
    }
  }

  lemma AiKeeps<S(!new)>(c: Config<S>, good: S -> bool, start: S, w: World<S>, command: Option<Command>)
    requires hide *; Lawful(c.rules, good) && WorldInv(c, good, start, w)
    requires w.live.Some? && !w.live.value.task.Committing? && AiMayMove(c, w.live.value)
    ensures WorldInv(c, good, start, AiMoved(c, w, command))
  {
    hide HistoryInv, CacheInv, Replay, Lawful, ShownInv, Backed, EntriesInv;
    var p := w.live.value;
    var step := AiStep(c, p.game, command);
    var p' := AiMoved(c, w, command).live.value;
    if step.applied.Some? {
      HistoryStep(c.rules, good, start, p.game.state, p.trail.applied, step.applied.value);
    }
    assert p.trail.applied + [] == p.trail.applied;
    CacheGrows(c.rules.version(start), p.trail, p'.trail, p.game, c.cacheLimit);
    SameCache(c.rules.version(start), p'.trail, p.game, p'.game, c.cacheLimit);
    if ReplyOf(p.task).Some? {
      var reply := ReplyOf(p.task).value;
      BackedGrows(c.rules.version(start), p.trail, p'.trail, reply.session, reply.request, reply.result);
    }
  }

  lemma SameCache<S(!new)>(start: int, trail: Trail, g: Game<S>, g': Game<S>, limit: nat)
    requires CacheInv(start, trail, g, limit)
    requires forall session :: session in g'.cache ==>
               && session in g.cache && g'.cache[session] == g.cache[session]
               && (session in g.humans ==> session in g'.humans)
    ensures CacheInv(start, trail, g', limit)
  {
    hide EntriesInv;
  }

  lemma PresenceKeeps<S(!new)>(c: Config<S>, good: S -> bool, start: S, w: World<S>, p': Process<S>)
    requires WorldInv(c, good, start, w) && w.live.Some? && w.live.value.task.Idle?
    requires var p := w.live.value;
             && p'.task.Committing? && p'.task.reply.None?
             && p'.committed == p.committed && p'.trail == p.trail && p'.game.state == p.game.state
             && p'.game.publicationRevision == p.game.publicationRevision + (if p'.task.publish then 1 else 0)
             && (!p'.task.publish ==> PresenceOf(p'.game) == PresenceOf(p.game))
             && (forall session :: session in p'.game.cache ==>
                   && session in p.game.cache && p'.game.cache[session] == p.game.cache[session]
                   && (session in p.game.humans ==> session in p'.game.humans))
    ensures WorldInv(c, good, start, w.(live := Some(p')))
  {
    hide HistoryInv, CacheInv, ShownInv, Backed, EntriesInv;
    SameCache(c.rules.version(start), p'.trail, w.live.value.game, p'.game, c.cacheLimit);
  }

  // The durable record moves forward: everything shown or replied stays covered.
  lemma LogsAdvance<S(!new)>(c: Config<S>, start: S, w: World<S>, durable: Game<S>, trail: Trail)
    requires LogsInv(c, start, w)
    requires Extends(w.durableTrail, trail) && Supersedes(durable, w.durable)
    ensures LogsInv(c, start, w.(durable := durable, durableTrail := trail))
  {
    hide ShownInv, Backed;
    forall i | 0 <= i < |w.replies| ensures ReplyInv(c.rules.version(start), trail, w.replies[i]) {
      var reply := w.replies[i];
      assert ReplyInv(c.rules.version(start), w.durableTrail, reply);
      BackedGrows(c.rules.version(start), w.durableTrail, trail, reply.session, reply.request, reply.result);
    }
    forall i | 0 <= i < |w.shown| ensures ShownInv(c.rules, start, durable, trail.applied, w.shown[i]) {
      ShownStays(c.rules, start, w.durable, w.durableTrail.applied, durable, trail.applied, w.shown[i]);
    }
  }

  lemma SavedKeeps<S(!new)>(c: Config<S>, good: S -> bool, start: S, w: World<S>)
    requires WorldInv(c, good, start, w) && w.live.Some? && w.live.value.task.Committing?
    ensures WorldInv(c, good, start, Saved(w))
  {
    hide GameInv, ShownInv, Backed;
    var p := w.live.value;
    LogsAdvance(c, start, w, p.game, p.trail);
    DurableIsShown(c, good, start, p.game, p.trail);
    ShownBefore(c, start, w);
  }

  lemma ShownBefore<S(!new)>(c: Config<S>, start: S, w: World<S>)
    requires LogsInv(c, start, w)
    ensures forall i :: 0 <= i < |w.shown| ==>
              && w.shown[i].revision <= w.durable.publicationRevision
              && (w.shown[i].revision == w.durable.publicationRevision ==> w.shown[i].presence == PresenceOf(w.durable))
              && c.rules.version(w.shown[i].state) - c.rules.version(start) <= |w.durableTrail.applied|
  {
    forall i | 0 <= i < |w.shown|
      ensures w.shown[i].revision <= w.durable.publicationRevision
      ensures w.shown[i].revision == w.durable.publicationRevision ==> w.shown[i].presence == PresenceOf(w.durable)
      ensures c.rules.version(w.shown[i].state) - c.rules.version(start) <= |w.durableTrail.applied|
    {
      assert ShownInv(c.rules, start, w.durable, w.durableTrail.applied, w.shown[i]);
    }
  }

  lemma HaltKeeps<S(!new)>(c: Config<S>, good: S -> bool, start: S, w: World<S>, effect: bool)
    requires WorldInv(c, good, start, w) && w.live.Some?
    ensures WorldInv(c, good, start, Next(c, w, Halt(effect)))
  {
    hide GameInv, ShownInv, Backed, LogsInv;
    var p := w.live.value;
    if p.task.Committing? && effect {
      LogsAdvance(c, start, w, p.game, p.trail);
      LogsIgnoreLife(c, start, w.(durable := p.game, durableTrail := p.trail));
    } else {
      LogsIgnoreLife(c, start, w);
    }
  }

  lemma LogsIgnoreLife<S(!new)>(c: Config<S>, start: S, w: World<S>)
    requires LogsInv(c, start, w)
    ensures forall live :: LogsInv(c, start, w.(live := live))
  {
    hide ShownInv, Backed;
  }

  lemma QuietKeeps<S(!new)>(c: Config<S>, good: S -> bool, start: S, w: World<S>, action: Action)
    requires WorldInv(c, good, start, w)
    requires action.FinishReply? || action.TakeSnapshot? || action.PauseTransport? || action.Stop? || action.Recover?
    ensures WorldInv(c, good, start, Next(c, w, action))
  {
    hide GameInv, ShownInv, Backed;
    if w.live.Some? {
      DurableIsShown(c, good, start, w.durable, w.durableTrail);
      ShownBefore(c, start, w);
    }
  }

  // Every step keeps the invariant.
  lemma StepKeeps<S(!new)>(c: Config<S>, good: S -> bool, start: S, w: World<S>, action: Action)
    requires Lawful(c.rules, good) && c.cacheLimit >= 1 && WorldInv(c, good, start, w)
    ensures WorldInv(c, good, start, Next(c, w, action))
  {
    hide GameInv, LogsInv, ProcessInv, Lawful, AiMayMove, MayReplace, HandleHuman;
    if w.live.Some? {
      var p := w.live.value;
      match action {
        case Deliver(session, request) => if p.task.Idle? { ReceivedKeeps(c, good, start, w, session, request); }
        case MoveAi(command) => if !p.task.Committing? && AiMayMove(c, p) { AiKeeps(c, good, start, w, command); }
        case ChangePresence(seats, deadline) =>
          if p.task.Idle? && !p.latches.closed {
            if seats == p.game.disconnectedSeats && deadline == p.game.abandonedDeadlineMs {
              LatchKeeps(c, good, start, w, p.latches.(transportPaused := false));
            } else {
              PresenceKeeps(c, good, start, w, Next(c, w, action).live.value);
            }
          }
        case Replace(session, profile) =>
          if p.task.Idle? && MayReplace(c, p, session) {
            MayReplaceKnown(c, p, session);
            PresenceKeeps(c, good, start, w, Replaced(p, session, profile));
          }
        case SaveRoom => if p.task.Idle? { PresenceKeeps(c, good, start, w, p.(task := Committing(None, false))); }
        case CommitSucceeds => if p.task.Committing? { SavedKeeps(c, good, start, w); }
        case Halt(effect) => HaltKeeps(c, good, start, w, effect);
        case _ => QuietKeeps(c, good, start, w, action);
      }
    } else if action.Recover? {
      QuietKeeps(c, good, start, w, action);
    }
  }

  lemma MayReplaceKnown<S>(c: Config<S>, p: Process<S>, session: SessionId)
    requires MayReplace(c, p, session)
    ensures session in p.game.humans
  {
  }

  lemma LatchKeeps<S(!new)>(c: Config<S>, good: S -> bool, start: S, w: World<S>, latches: Latches)
    requires WorldInv(c, good, start, w) && w.live.Some?
    ensures WorldInv(c, good, start, w.(live := Some(w.live.value.(latches := latches))))
  {
    hide GameInv, ShownInv, Backed;
  }

  // Whole runs.

  // A fresh game, committed for the first time: nothing applied, replied or shown.
  function Opened<S>(g: Game<S>): World<S> {
    World(Some(Process(g, CommittedOf(g), AWAKE, Idle, Trail([], []))), g, Trail([], []), [], [])
  }

  lemma OpenedInv<S(!new)>(c: Config<S>, good: S -> bool, g: Game<S>)
    requires good(g.state) && g.cache == map[]
    ensures WorldInv(c, good, g.state, Opened(g))
  {
  }

  lemma {:induction false} RunKeeps<S(!new)>(c: Config<S>, good: S -> bool, start: S, w: World<S>, actions: seq<Action>)
    requires Lawful(c.rules, good) && c.cacheLimit >= 1 && WorldInv(c, good, start, w)
    ensures WorldInv(c, good, start, Run(c, w, actions))
  {
    hide WorldInv, Lawful, Next;
    if actions != [] {
      RunKeeps(c, good, start, w, actions[..|actions| - 1]);
      StepKeeps(c, good, start, Run(c, w, actions[..|actions| - 1]), actions[|actions| - 1]);
    }
  }

  // At most once: a request occurs at most once among the commands ever applied durably.
  lemma AtMostOnce<S(!new)>(c: Config<S>, good: S -> bool, g: Game<S>, actions: seq<Action>)
    requires Lawful(c.rules, good) && c.cacheLimit >= 1 && good(g.state) && g.cache == map[]
    ensures var w := Run(c, Opened(g), actions);
            && w.durable.state == Replay(c.rules, g.state, w.durableTrail.applied)
            && c.rules.version(w.durable.state) == c.rules.version(g.state) + |w.durableTrail.applied|
            && forall i, j :: 0 <= i < j < |w.durableTrail.applied|
                              && w.durableTrail.applied[i].origin.Some? && w.durableTrail.applied[j].origin.Some? ==>
                 w.durableTrail.applied[i].origin.value.request != w.durableTrail.applied[j].origin.value.request
  {
    hide Lawful, Next, LogsInv, CacheInv, Replay;
    OpenedKeeps(c, good, g, actions);
  }

  lemma OpenedKeeps<S(!new)>(c: Config<S>, good: S -> bool, g: Game<S>, actions: seq<Action>)
    requires Lawful(c.rules, good) && c.cacheLimit >= 1 && good(g.state) && g.cache == map[]
    ensures WorldInv(c, good, g.state, Run(c, Opened(g), actions))
  {
    OpenedInv(c, good, g);
    RunKeeps(c, good, g.state, Opened(g), actions);
  }

  // Every successful reply is backed by a durable commit: it is one of the answers the record
  // was stored with, and an accepted one names the place its request has in the durable history.
  lemma RepliesAreDurable<S(!new)>(c: Config<S>, good: S -> bool, g: Game<S>, actions: seq<Action>, i: nat)
    requires Lawful(c.rules, good) && c.cacheLimit >= 1 && good(g.state) && g.cache == map[]
    requires i < |Run(c, Opened(g), actions).replies|
    ensures var w := Run(c, Opened(g), actions);
            var reply, base := w.replies[i], c.rules.version(g.state);
            && reply in w.durableTrail.answered && reply.result.commandId == reply.request.commandId
            && 0 <= reply.result.stateVersion - base <= |w.durableTrail.applied|
            && (reply.result.accepted ==>
                  && reply.result.stateVersion > base
                  && w.durableTrail.applied[reply.result.stateVersion - base - 1].origin == Some(Origin(reply.session, reply.request)))
  {
    hide Lawful, Next, GameInv, ProcessInv, ShownInv, Run, Opened;
    OpenedKeeps(c, good, g, actions);
    assert ReplyInv(c.rules.version(g.state), Run(c, Opened(g), actions).durableTrail, Run(c, Opened(g), actions).replies[i]);
  }

  // Commit before publish: whatever was published, or shown in a snapshot at any moment, is
  // the state after some prefix of the durable history; published revisions strictly increase.
  lemma OnlyCommittedStateIsShown<S(!new)>(c: Config<S>, good: S -> bool, g: Game<S>, actions: seq<Action>)
    requires Lawful(c.rules, good) && c.cacheLimit >= 1 && good(g.state) && g.cache == map[]
    ensures var w := Run(c, Opened(g), actions);
            && (forall i :: 0 <= i < |w.shown| ==> ShownInv(c.rules, g.state, w.durable, w.durableTrail.applied, w.shown[i]))
            && InOrder(c.rules, w.shown)
  {
    hide Lawful, Next, GameInv, ProcessInv, ShownInv, Run, Opened;
    OpenedKeeps(c, good, g, actions);
  }

  // The durable history and the logs only ever grow.
  lemma StepGrows<S(!new)>(c: Config<S>, good: S -> bool, start: S, w: World<S>, action: Action)
    requires WorldInv(c, good, start, w)
    ensures Extends(w.durableTrail, Next(c, w, action).durableTrail)
    ensures w.replies <= Next(c, w, action).replies && w.shown <= Next(c, w, action).shown
    ensures w.durable.publicationRevision <= Next(c, w, action).durable.publicationRevision
  {
    hide GameInv, LogsInv, HandleHuman, AiMayMove, MayReplace;
  }

  // Stable replay: while the entry of a request is retained, every reply to it is the entry's.
  predicate Retained<S>(w: World<S>, session: SessionId, entry: CacheEntry) {
    && w.live.Some? && FindEntry(EntriesOf(w.live.value.game, session), entry.request.commandId) == Some(entry)
    && (ReplyOf(w.live.value.task).Some?
        && ReplyOf(w.live.value.task).value.session == session && ReplyOf(w.live.value.task).value.request == entry.request ==>
          ReplyOf(w.live.value.task).value.result == entry.result)
  }

  // The replies logged between two worlds.
  function NewReplies<S>(w: World<S>, w': World<S>): seq<Reply>
    requires |w.replies| <= |w'.replies|
  {
    w'.replies[|w.replies|..]
  }

  predicate RepliesMatch(replies: seq<Reply>, session: SessionId, entry: CacheEntry) {
    forall i :: 0 <= i < |replies| && replies[i].session == session && replies[i].request == entry.request ==>
      replies[i].result == entry.result
  }

  lemma RetainedStep<S(!new)>(c: Config<S>, good: S -> bool, start: S, w: World<S>, action: Action, session: SessionId, entry: CacheEntry)
    requires hide *; WorldInv(c, good, start, w) && Retained(w, session, entry)
    ensures w.replies <= Next(c, w, action).replies
    ensures RepliesMatch(NewReplies(w, Next(c, w, action)), session, entry)
    ensures var w' := Next(c, w, action);
            w'.live.Some? && FindEntry(EntriesOf(w'.live.value.game, session), entry.request.commandId) == Some(entry) ==>
              Retained(w', session, entry)
  {
    hide GameInv, LogsInv, ProcessInv, AiMayMove, MayReplace, LifecycleStatus, FindEntry;
    StepGrows(c, good, start, w, action);
    if action.Deliver? && w.live.value.task.Idle? && action.session == session && action.request == entry.request {
      RetainedIsReplayed(c, w.live.value.game, w.live.value.latches, session, action.request, entry);
    }
  }

  // The entry is there: in memory while the server is up, in the record while it is down.
  predicate Kept<S>(w: World<S>, session: SessionId, entry: CacheEntry) {
    FindEntry(EntriesOf(if w.live.Some? then w.live.value.game else w.durable, session), entry.request.commandId) == Some(entry)
  }

  ghost predicate KeptThroughout<S>(c: Config<S>, w: World<S>, actions: seq<Action>, session: SessionId, entry: CacheEntry) {
    forall k :: 0 <= k <= |actions| ==> Kept(Run(c, w, actions[..k]), session, entry)
  }

  lemma KeptStep<S(!new)>(c: Config<S>, good: S -> bool, start: S, w: World<S>, action: Action, session: SessionId, entry: CacheEntry)
    requires hide *; WorldInv(c, good, start, w) && (w.live.Some? ==> Retained(w, session, entry))
    requires Kept(w, session, entry) && Kept(Next(c, w, action), session, entry)
    ensures w.replies <= Next(c, w, action).replies
    ensures RepliesMatch(NewReplies(w, Next(c, w, action)), session, entry)
    ensures Next(c, w, action).live.Some? ==> Retained(Next(c, w, action), session, entry)
  {
    hide WorldInv, FindEntry;
    if w.live.Some? {
      hide Next, Retained;
      RetainedStep(c, good, start, w, action, session, entry);
    }
  }

  // Stable replay, over crashes and recoveries too: as long as the entry of a request is kept,
  // every reply to the request is the entry's.
  lemma {:induction false} RepliesAreStable<S(!new)>(
    c: Config<S>, good: S -> bool, start: S, w: World<S>, actions: seq<Action>, session: SessionId, entry: CacheEntry)
    requires Lawful(c.rules, good) && c.cacheLimit >= 1 && WorldInv(c, good, start, w)
    requires w.live.Some? ==> Retained(w, session, entry)
    requires KeptThroughout(c, w, actions, session, entry)
    ensures Run(c, w, actions).live.Some? ==> Retained(Run(c, w, actions), session, entry)
    ensures w.replies <= Run(c, w, actions).replies
    ensures RepliesMatch(NewReplies(w, Run(c, w, actions)), session, entry)
  {
    hide WorldInv, Lawful, Next, Retained, Kept;
    if actions != [] {
      var n := |actions| - 1;
      forall k | 0 <= k <= n ensures Kept(Run(c, w, actions[..n][..k]), session, entry) {
        assert actions[..n][..k] == actions[..k];
      }
      RepliesAreStable(c, good, start, w, actions[..n], session, entry);
      RunKeeps(c, good, start, w, actions[..n]);
      assert actions[..|actions|] == actions;
      KeptStep(c, good, start, Run(c, w, actions[..n]), actions[n], session, entry);
    }
  }

  lemma {:induction false} FindAppended(entries: seq<CacheEntry>, entry: CacheEntry)
    requires FindEntry(entries, entry.request.commandId).None?
    ensures FindEntry(entries + [entry], entry.request.commandId) == Some(entry)
  {
    if entries == [] {
      assert (entries + [entry])[0] == entry;
    } else {
      FindAppended(entries[1..], entry);
      assert (entries + [entry])[1..] == entries[1..] + [entry];
    }
  }

  lemma FindRemembered(entries: seq<CacheEntry>, entry: CacheEntry, limit: nat)
    requires limit >= 1 && FindEntry(entries, entry.request.commandId).None?
    ensures FindEntry(Remember(entries, entry, limit), entry.request.commandId) == Some(entry)
  {
    FindAppended(entries, entry);
    if |entries| + 1 > limit && entries != [] {
      assert (entries + [entry])[1..] == entries[1..] + [entry];
      FindAppended(entries[1..], entry);
    }
  }

  // Executing a request retains its result, and the reply then owed is that result.
  lemma ExecutionIsRetained<S(!new)>(c: Config<S>, w: World<S>, session: SessionId, request: Request)
    requires c.cacheLimit >= 1 && w.live.Some? && w.live.value.task.Idle?
    requires HandleHuman(c, w.live.value.game, w.live.value.latches, session, request).executed
    ensures var result := HandleHuman(c, w.live.value.game, w.live.value.latches, session, request).acknowledgement.result;
            Retained(Next(c, w, Deliver(session, request)), session, CacheEntry(request, result))
  {
    hide FindEntry, Remember, LifecycleStatus;
    var g := w.live.value.game;
    var handling := HandleHuman(c, g, w.live.value.latches, session, request);
    FindRemembered(EntriesOf(g, session), CacheEntry(request, handling.acknowledgement.result), c.cacheLimit);
  }
}
