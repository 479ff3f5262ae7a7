// The session authority over the real rules engine.

module OnlineGame {
  import opened Board
  import opened Bags
  import opened GameModel
  import opened SeededRandom
  import opened Assertions
  import opened Engine
  import opened Invariants
  import opened Frames
  import opened Safety
  import S = Sessions
  import R = SessionRuns

  // Who has to decide next.
  function FirstOwing(order: seq<PlayerId>, required: map<PlayerId, int>, completed: seq<PlayerId>): Option<PlayerId> {
    if order == [] then None
    else if order[0] in required && order[0] !in completed then Some(order[0])
    else FirstOwing(order[1..], required, completed)
  }

  function NextDecisionActor(s: GameState): Option<PlayerId> {
    if s.pending.None? then Some(s.turn.current)
    else
      match s.pending.value
      case DiscardResources(_, required, completed) => FirstOwing(s.playerOrder, required, completed)
      case RespondToTrade(responder, _, _) => Some(responder)
      case MoveRobber(actor, _) => Some(actor)
      case ChooseRobberTarget(actor, _, _, _) => Some(actor)
      case PlaceFreeRoads(actor, _, _) => Some(actor)
      case ChooseInvention(actor, _) => Some(actor)
      case ChooseMonopoly(actor, _) => Some(actor)
  }

  lemma {:induction false} SomeoneOwes(order: seq<PlayerId>, required: map<PlayerId, int>, completed: seq<PlayerId>, p: PlayerId)
    requires p in order && p in required && p !in completed
    ensures FirstOwing(order, required, completed).Some?
    ensures FirstOwing(order, required, completed).value in order
  {
    if order[0] != p && !(order[0] in required && order[0] !in completed) {
      SomeoneOwes(order[1..], required, completed, p);
    }
  }

  // There is always somebody to decide, and it is one of the players.
  lemma SomebodyDecides(s: GameState)
    requires Inv(s)
    ensures NextDecisionActor(s).Some? && NextDecisionActor(s).value in s.players
  {
    hide CoreInv, AwardInv, FirstOwing, PendingNamesKnown;
    InvAsserts(s);
    PlayersAre(s);
    if s.pending.Some? {
      PendingActor(s);
    }
  }

  lemma PendingActor(s: GameState)
    requires hide *; CoreInv(s) && s.pending.Some?
    ensures NextDecisionActor(s).Some? && NextDecisionActor(s).value in s.players
  {
    hide BoardInv, ResourceInv, CardInv, SetupInv, TurnInv, FilterOrder, Rules.EligibleTargets, Rules.HasLegalFreeRoad, FirstOwing,
      SetupPhaseInv, TradeCoherent, Rules.Points, NoHiddenPoints;
    OpenCore(s);
    PlayersAre(s);
    if s.turn.phase == DiscardRequired {
      var pending := s.pending.value;
      var done := set q | q in pending.completed;
      var p :| p in pending.required && p !in done;
      SomeoneOwes(s.playerOrder, pending.required, pending.completed, p);
    }
  }

  ghost function Executed(s: GameState, env: Envelope): S.Outcome<GameState> {
    match Execute(s, env)
    case Accepted(state) => S.Accepted(state)
    case Rejected(violation) => S.Rejected(violation)
    case Threw => S.Threw
  }

  ghost function CoreRules(): S.Rules<GameState> {
    S.Rules((s, env) => Executed(s, env), (s: GameState) => s.stateVersion, (s: GameState) => s.winner.Some?,
            (s: GameState) => NextDecisionActor(s))
  }

  ghost function GoodState(): GameState -> bool {
    (s: GameState) => Inv(s)
  }

  lemma LateIsRejected(s: GameState, env: Envelope)
    requires env.expectedStateVersion != s.stateVersion || s.winner.Some?
    ensures !Execute(s, env).Accepted?
  {
    hide TradingAsserts, CardAsserts, ScoringAsserts, SetupAsserts, Rules.KnownEdges;
  }

  lemma ExecutedIsLawful(s: GameState, env: Envelope)
    requires hide *; Inv(s)
    ensures !Executed(s, env).Threw?
    ensures Executed(s, env).Accepted? ==>
              && s.winner.None? && env.expectedStateVersion == s.stateVersion
              && Executed(s, env).state.stateVersion == s.stateVersion + 1 && Inv(Executed(s, env).state)
  {
    hide Inv, Execute;
    StepIsSafe(s, env);
    if env.expectedStateVersion != s.stateVersion || s.winner.Some? {
      LateIsRejected(s, env);
    }
  }

  // The rules engine is lawful, so everything proved of session runs holds of online games.
  lemma CoreIsLawful()
    ensures S.Lawful(CoreRules(), GoodState())
  {
    hide Inv, Executed;
    forall s: GameState, env | Inv(s)
      ensures !Executed(s, env).Threw?
      ensures Executed(s, env).Accepted? ==>
                && s.winner.None? && env.expectedStateVersion == s.stateVersion
                && Executed(s, env).state.stateVersion == s.stateVersion + 1 && Inv(Executed(s, env).state)
    {
      ExecutedIsLawful(s, env);
    }
  }

  // In an online game that starts new, whatever requests, AI moves, commits, crashes and
  // recoveries follow: the durable game satisfies the rules' invariant, its version counts
  // the commands applied, and no request was applied twice.
  lemma OnlineRunsAreSafe(
    roomCode: string, gameId: string, cacheLimit: nat, advanceLimit: nat, maxAiCommands: nat, g: S.Game<GameState>,
    board: BoardState, order: seq<PlayerId>, deck: seq<CardDefinition>, random: RandomState, actions: seq<R.Action>)
    requires ValidStart(board, order, deck, random) && g.state == NewGame(board, order, deck, random)
    requires g.cache == map[] && cacheLimit >= 1
    ensures var w := R.Run(S.Config(roomCode, gameId, cacheLimit, advanceLimit, maxAiCommands, CoreRules()), R.Opened(g), actions);
            && TradingAsserts(w.durable.state)
            && w.durable.state.stateVersion == |w.durableTrail.applied|
            && (w.live.Some? ==> TradingAsserts(w.live.value.game.state) && NextDecisionActor(w.live.value.game.state).Some?)
            && forall i, j :: 0 <= i < j < |w.durableTrail.applied|
                              && w.durableTrail.applied[i].origin.Some? && w.durableTrail.applied[j].origin.Some? ==>
                 w.durableTrail.applied[i].origin.value.request != w.durableTrail.applied[j].origin.value.request
  {
    hide Inv, ValidStart, TradingAsserts, R.Run, NextDecisionActor, R.LogsInv, R.CacheInv, R.Replay;
    var c := S.Config(roomCode, gameId, cacheLimit, advanceLimit, maxAiCommands, CoreRules());
    NewGameInv(board, order, deck, random);
    CoreIsLawful();
    R.OpenedKeeps(c, GoodState(), g, actions);
    R.AtMostOnce(c, GoodState(), g, actions);
    var w := R.Run(c, R.Opened(g), actions);
    InvAsserts(w.durable.state);
    if w.live.Some? {
      InvAsserts(w.live.value.game.state);
      SomebodyDecides(w.live.value.game.state);
    }
  }
}
