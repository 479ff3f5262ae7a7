// What the invariant says of every reachable state, in the game's own terms.

module Reachability {
  import opened Board
  import opened Bags
  import opened GameModel
  import opened LongestRoad
  import opened SeededRandom
  import opened Production
  import opened Rules
  import opened Assertions
  import opened Engine
  import opened Invariants
  import opened InvariantsImplyAssertions
  import opened Geometry
  import opened Frames
  import opened SetupSafety
  import opened Safety

  ghost predicate ReachedFrom(
    s: GameState, board: BoardState, order: seq<PlayerId>, deck: seq<CardDefinition>, random: RandomState, envs: seq<Envelope>)
  {
    ValidStart(board, order, deck, random) && s == Run(NewGame(board, order, deck, random), envs)
  }

  ghost predicate Reachable(s: GameState) {
    exists board, order, deck, random, envs :: ReachedFrom(s, board, order, deck, random, envs)
  }

  lemma ReachableInv(s: GameState)
    requires Reachable(s)
    ensures Inv(s)
  {
    hide Inv, Execute;
    var board, order, deck, random, envs :| ReachedFrom(s, board, order, deck, random, envs);
    NewGameInv(board, order, deck, random);
    RunKeepsInv(NewGame(board, order, deck, random), envs);
  }

  // Setup.

  function SnakeIndex(turn: int): int {
    if turn < 4 then turn else 7 - turn
  }

  lemma SetupFacts(s: GameState)
    requires Inv(s)
    ensures |s.playerOrder| == 4 && s.stateVersion >= 0
    ensures !InSetup(s) ==> s.stateVersion >= 16 && s.turn.turnNumber > 0
                            && s.turn.current == s.playerOrder[(s.turn.turnNumber - 1) % 4]
    ensures InSetup(s) ==>
              && s.turn.setup.Some?
              && (s.turn.setup.value.round == 1 || s.turn.setup.value.round == 2)
              && 0 <= s.turn.setup.value.placementIndex <= 3
              && s.turn.current == s.playerOrder[ExpectedSetupIndex(s.turn.setup.value)]
              && s.stateVersion == 2 * SetupTurnsDone(s.turn.setup.value) + Half(s.turn.phase)
  {
    hide BoardInv, ResourceInv, CardInv, AwardInv, PointInv, SetupPieces, FreshSettlement, SupplyFloor, ActionInv, DiscardInv, MoveInv,
      TargetInv, FreeRoadInv, EffectInv, OverInv;
    OpenCore(s);
  }

  // Sixteen setup commands, settlement and road in turn, in snake order; from then on turn n
  // belongs to the player at order index (n - 1) mod 4.
  ghost predicate InTurnOrder(s: GameState) {
    && |s.playerOrder| == 4 && s.stateVersion >= 0
    && (InSetup(s) <==> s.stateVersion < 16)
    && (if s.stateVersion < 16 then
          && s.turn.current == s.playerOrder[SnakeIndex(s.stateVersion / 2)]
          && (s.turn.phase == SetupRoad <==> s.stateVersion % 2 == 1)
          && s.turn.setup.Some?
          && s.turn.setup.value.round == 1 + s.stateVersion / 8
          && s.turn.setup.value.placementIndex == s.stateVersion / 2 % 4
        else
          && s.turn.turnNumber > 0 && s.turn.current == s.playerOrder[(s.turn.turnNumber - 1) % 4])
  }

  lemma SetupIsSnakeOrder(s: GameState)
    requires Reachable(s)
    ensures InTurnOrder(s)
  {
    hide Reachable, Inv;
    ReachableInv(s);
    SetupFacts(s);
    if InSetup(s) {
      var setup := s.turn.setup.value;
      assert s.stateVersion / 2 == SetupTurnsDone(setup);
    }
  }

  ghost predicate TwoEach(s: GameState) {
    forall p :: p in s.players ==>
      |BuildingsOf(s.board, p, Settlement)| == 2 && |BuildingsOf(s.board, p, City)| == 0 && |RoadsOf(s.board, p)| == 2
  }

  // While a setup road is due, no other sub-engine accepts anything.

  lemma SetupRefusesTurns(s: GameState, env: Envelope)
    requires s.turn.phase == SetupRoad
    ensures !ExecuteNormalTurn(s, env).Accepted?
  {
    hide ScoringAsserts, ExecuteRoll, ExecuteEndTurn;
  }

  lemma SetupRefusesRobber(s: GameState, env: Envelope)
    requires hide *; s.turn.phase == SetupRoad && s.pending.None?
    requires env.command.Discard? || env.command.Move? || env.command.Steal?
    ensures !ExecuteRobber(s, env).Accepted?
  {
    hide CardAsserts, ExecuteDiscard, ExecuteMove, ExecuteSteal;
  }

  lemma SetupRefusesBuilding(s: GameState, env: Envelope)
    requires hide *; s.turn.phase == SetupRoad
    requires env.command.BuildRoad? || env.command.BuildSettlement? || env.command.UpgradeCity?
    ensures !ExecutePaidBuilding(s, env).Accepted?
  {
    hide ScoringAsserts, ExecuteBuild, KnownEdges;
  }

  lemma SetupRefusesCards(s: GameState, env: Envelope)
    requires hide *; s.turn.phase == SetupRoad && s.pending.None?
    requires forall p :: p in s.playerOrder ==> p in s.players
    requires env.command.BuildRoad? || env.command.FinishFreeRoads? || env.command.TakeInvention?
             || env.command.TakeMonopoly? || env.command.BuyCard? || env.command.PlayCard?
    ensures !ExecuteCards(s, env).Accepted?
  {
    hide CardAsserts, KnownEdges, ExecuteBuy, ExecutePlay, ExecuteFreeRoad, ExecuteFinish, ExecuteInvention, ExecuteMonopoly;
    if CardAsserts(s) && KnownEdges(s.board) && CommonGuard(s, env).None? && !env.command.BuyCard? && !env.command.PlayCard? {
      assert ExecutePendingEffect(s, env) == Rejected(WrongPhase);
    }
  }

  lemma SetupRefusesTrading(s: GameState, env: Envelope)
    requires hide *; s.turn.phase == SetupRoad && s.pending.None?
    requires env.command.AcceptTrade? || env.command.RejectTrade? || env.command.CounterTrade?
             || env.command.ProposeTrade? || env.command.MaritimeTrade?
    ensures !ExecuteTrading(s, env).Accepted?
  {
    hide TradingAsserts, ExecuteProposal, ExecuteMaritime, ExecuteAccept, ExecuteCounter;
  }

  lemma SetupRoadDue(s: GameState, env: Envelope)
    requires hide *; s.turn.phase == SetupRoad && |s.playerOrder| == 4 && ExecuteSetup(s, env).Accepted?
    ensures env.command.PlaceInitialRoad? && env.actor == s.turn.current
    ensures ExecuteSetup(s, env) == PlaceRoad(s, s.turn.current, env.command.edgeId)
  {
    hide SetupAsserts, PlaceRoad;
  }

  lemma OnlyRoadsInSetupRoad(s: GameState, env: Envelope)
    requires hide *; Inv(s) && s.turn.phase == SetupRoad && Execute(s, env).Accepted?
    ensures env.command.PlaceInitialRoad? && env.actor == s.turn.current
    ensures |s.playerOrder| == 4 && Execute(s, env) == PlaceRoad(s, s.turn.current, env.command.edgeId)
  {
    hide Inv, CoreInv, TradingAsserts, CardAsserts, ScoringAsserts, KnownEdges, ValidRandomState, PlaceRoad, ExecuteSetup,
      ExecuteNormalTurn, ExecuteRobber, ExecutePaidBuilding, ExecuteCards, ExecuteTrading, FourPlayers;
    SetupHasNothingPending(s);
    FourFromInv(s);
    InvAsserts(s);
    PlayersAre(s);
    match env.command
    case RollDice => SetupRefusesTurns(s, env);
    case EndTurn => SetupRefusesTurns(s, env);
    case Discard(_) => SetupRefusesRobber(s, env);
    case Move(_) => SetupRefusesRobber(s, env);
    case Steal(_) => SetupRefusesRobber(s, env);
    case BuildSettlement(_) => SetupRefusesBuilding(s, env);
    case UpgradeCity(_) => SetupRefusesBuilding(s, env);
    case BuildRoad(_) => SetupRefusesBuilding(s, env);
    case BuyCard => SetupRefusesCards(s, env);
    case PlayCard(_) => SetupRefusesCards(s, env);
    case TakeInvention(_) => SetupRefusesCards(s, env);
    case TakeMonopoly(_) => SetupRefusesCards(s, env);
    case FinishFreeRoads => SetupRefusesCards(s, env);
    case PlaceInitialSettlement(_) => SetupRoadDue(s, env);
    case PlaceInitialRoad(_) => SetupRoadDue(s, env);
    case _ => SetupRefusesTrading(s, env);
  }

  lemma FourFromInv(s: GameState)
    requires Inv(s)
    ensures |s.playerOrder| == 4
  {
    hide BoardInv, ResourceInv, CardInv, PhaseInv, SetupInv, TurnInv, AwardInv, PointInv, Distinct;
    OpenCore(s);
  }

  lemma SetupHasNothingPending(s: GameState)
    requires Inv(s) && InSetup(s)
    ensures s.pending.None? && s.winner.None?
  {
    hide BoardInv, ResourceInv, CardInv, AwardInv, PointInv, SetupInv, TurnInv, SetupPhaseInv;
    OpenCore(s);
  }

  lemma SixteenthCommand(s: GameState, env: Envelope)
    requires hide *; Inv(s) && s.stateVersion == 15 && Execute(s, env).Accepted?
    ensures TwoEach(Execute(s, env).state)
  {
    hide Inv, Execute, BuildingsOf, RoadsOf, ValidateInitialRoad;
    FifteenIsLastRoad(s);
    OnlyRoadsInSetupRoad(s, env);
    var e := env.command.edgeId;
    if ValidateInitialRoad(s, s.turn.current, e, s.turn.setup.value.pendingVertex.value).None? {
      LastRoadKeepsInv(s, e);
    }
  }

  lemma FifteenIsLastRoad(s: GameState)
    requires hide *; Inv(s) && s.stateVersion == 15
    ensures s.turn.phase == SetupRoad && s.turn.setup.Some? && s.turn.setup.value.pendingVertex.Some?
    ensures IsLastSetupTurn(s.turn.setup.value)
  {
    hide BoardInv, ResourceInv, CardInv, AwardInv, PointInv, SetupPieces, FreshSettlement, SupplyFloor;
    OpenCore(s);
  }

  lemma {:induction false} RunFinishesSetup(s: GameState, envs: seq<Envelope>)
    requires Inv(s) && s.stateVersion == 0
    ensures Run(s, envs).stateVersion == 16 ==> TwoEach(Run(s, envs))
  {
    hide Inv, Execute, TwoEach;
    if envs != [] {
      RunFinishesSetup(s, envs[..|envs| - 1]);
      RunKeepsInv(s, envs[..|envs| - 1]);
      var before, env := Run(s, envs[..|envs| - 1]), envs[|envs| - 1];
      StepIsSafe(before, env);
      if Execute(before, env).Accepted? && before.stateVersion == 15 {
        SixteenthCommand(before, env);
      }
    }
  }

  // Setup leaves every player with two settlements and two roads.
  lemma SetupLeavesTwoEach(s: GameState)
    requires Reachable(s) && s.stateVersion == 16
    ensures !InSetup(s) && TwoEach(s)
  {
    hide Inv, TwoEach, Execute;
    SetupIsSnakeOrder(s);
    var board, order, deck, random, envs :| ReachedFrom(s, board, order, deck, random, envs);
    NewGameInv(board, order, deck, random);
    RunFinishesSetup(NewGame(board, order, deck, random), envs);
  }

  // Starting resources are always granted in full.
  lemma NoStartingShortage(s: GameState, v: VertexId)
    requires Reachable(s) && s.turn.phase == SetupSettlement && s.turn.setup.Some? && s.turn.setup.value.round == 2
    requires ValidateInitialSettlement(s, s.turn.current, v).None?
    ensures var grant := GrantStartingResources(s.(board := Settled(s.board, s.turn.current, v)), s.turn.current, v);
            grant.Some? && grant.value.granted == grant.value.demand
  {
    hide CoreInv, AwardInv, PointInv, GrantFrom, Reachable;
    ReachableInv(s);
    GrantedHands(s, v);
  }

  // The board.

  // No two adjacent vertices are ever both occupied; every road runs through its owner's
  // roads to one of the owner's buildings; nobody has more pieces than the box holds.
  lemma BoardStaysLegal(s: GameState)
    requires Reachable(s)
    ensures forall v, w :: v in s.board.buildings && w in s.board.buildings ==>
              v in s.board.topology.vertices && w !in s.board.topology.vertices[v].adjacentVertexIds
    ensures forall e :: e in s.board.roads ==> IsAnchored(s.board, s.board.roads[e], e)
    ensures WithinLimits(s.board, s.players.Keys)
  {
    hide Reachable, Inv, BoardInv;
    ReachableInv(s);
    InvBoard(s);
    LegalBoard(s.board, s.players.Keys);
  }

  lemma InvBoard(s: GameState)
    requires Inv(s)
    ensures BoardInv(s.board, s.players.Keys)
  {
    hide AwardInv, PointInv, BoardInv, ResourceInv, CardInv, PhaseInv, SetupInv, TurnInv;
    OpenCore(s);
  }

  lemma LegalBoard(b: BoardState, players: set<PlayerId>)
    requires BoardInv(b, players)
    ensures forall v, w :: v in b.buildings && w in b.buildings ==>
              v in b.topology.vertices && w !in b.topology.vertices[v].adjacentVertexIds
    ensures forall e :: e in b.roads ==> IsAnchored(b, b.roads[e], e)
    ensures WithinLimits(b, players)
  {
    hide ValidTopology, IsAnchored, WithinLimits;
    forall v | v in b.buildings
      ensures v in b.topology.vertices
      ensures forall w :: w in b.buildings ==> w !in b.topology.vertices[v].adjacentVertexIds
    {
      assert !HasOccupiedNeighbour(b, v);
    }
  }

  // Victory.

  // A winner is the current player with ten points; until then, and with no Knight being
  // resolved, the current player has fewer.
  lemma WinnersAreCurrent(s: GameState)
    requires Reachable(s)
    ensures s.turn.current in s.players
    ensures s.winner.Some? <==> s.turn.phase == GameOver
    ensures s.winner.Some? ==> s.winner == Some(s.turn.current) && ActualPoints(s, s.turn.current) >= 10
    ensures !InSetup(s) && s.winner.None? && !KnightPending(s) ==> ActualPoints(s, s.turn.current) < 10
  {
    hide Reachable, Inv, Points;
    ReachableInv(s);
    InvWinner(s);
  }

  lemma InvWinner(s: GameState)
    requires hide *; Inv(s)
    ensures s.turn.current in s.players
    ensures s.winner.Some? <==> s.turn.phase == GameOver
    ensures s.winner.Some? ==> s.winner == Some(s.turn.current) && ActualPoints(s, s.turn.current) >= 10
    ensures !InSetup(s) && s.winner.None? && !KnightPending(s) ==> ActualPoints(s, s.turn.current) < 10
  {
    hide BoardInv, ResourceInv, CardInv, SetupInv, TurnInv, AwardInv, Points, ActionInv, DiscardInv, MoveInv, TargetInv,
      FreeRoadInv, EffectInv, SetupPhaseInv, FourPlayers;
    OpenCore(s);
    assert FourPlayers(s);
    FourHaveFour(s);
  }

  lemma FourHaveFour(s: GameState)
    requires FourPlayers(s)
    ensures |s.playerOrder| == 4
  {
  }

  // A finished game accepts nothing.
  lemma FinishedGameIsFinal(s: GameState, env: Envelope)
    requires Reachable(s) && s.winner.Some?
    ensures Execute(s, env).Rejected?
    ensures env.expectedStateVersion == s.stateVersion && env.actor in s.players ==> Execute(s, env) == Rejected(GameIsOver)
  {
    hide Reachable, Inv, CoreInv, SetupAsserts, TradingAsserts, CardAsserts, ScoringAsserts, KnownEdges, ExecuteRoll, ExecuteEndTurn,
      ExecuteDiscard, ExecuteMove, ExecuteSteal, ExecuteBuild, ExecuteBuy, ExecutePlay, PlaceSettlement, PlaceRoad, ExecuteProposal,
      ExecuteMaritime, ExecutePendingEffect, ExecuteAccept, ExecuteCounter, FourPlayers, Points, ValidRandomState;
    WinnersAreCurrent(s);
    ReachableInv(s);
    InvAsserts(s);
    InvImpliesSetup(s);
    OverHasNothingPending(s);
  }

  lemma OverHasNothingPending(s: GameState)
    requires Inv(s) && s.winner.Some?
    ensures s.pending.None?
  {
    hide CoreInv, AwardInv, PointInv, Points, NoHiddenPoints;
    assert CoreInv(s);
    WinnerFacts(s);
  }
}
