// Paid building keeps the invariant and never throws.

module BuildSafety {
  import opened Board
  import opened Bags
  import opened GameModel
  import opened LongestRoad
  import opened SeededRandom
  import opened Production
  import opened Rules
  import opened Assertions
  import opened Engine
  import opened Invariants
  import opened InvariantsImplyAssertions
  import opened Geometry
  import opened Frames
  import opened Transfers
  import opened Victory
  import opened RobberSafety

  // Paying for a piece that the board invariant survives.
  lemma PaidCore(s: GameState, actor: PlayerId, cost: Bag, board: BoardState)
    requires hide *; Inv(s) && s.turn.phase == Action && s.winner.None? && s.pending.None? && actor in s.players
    requires BoardInv(board, s.players.Keys)
    requires cost.Complete() && s.players[actor].resources.Covers(cost)
    ensures var n := Pay(s, actor, cost).(board := board);
            && CoreInv(n) && !InSetup(n) && n.turn.phase == Action && n.pending.None?
            && (n.awards.longestRoad.Some? ==> n.awards.longestRoad.value in n.players)
            && (n.awards.largestArmy.Some? ==> n.awards.largestArmy.value in n.players)
  {
    hide Inv, CoreInv, BoardInv, ResourceInv, CardInv, AwardInv, PointInv, PhaseInv, Distinct, HandsOf, HoldingsOf, ValidRandomState,
      WithHand, FourPlayers, ActionInv, DiscardInv, MoveInv, TargetInv, FreeRoadInv, OverInv, EffectInv, SetupPhaseInv;
    var n := Pay(s, actor, cost).(board := board);
    InPlay(s);
    AwardHoldersKnown(s);
    DiscardResourcesKept(s, actor, cost);
    PaidShape(s, actor, cost, board);
    PaidPhase(s, n);
    Assemble(n);
  }

  lemma PaidShape(s: GameState, actor: PlayerId, cost: Bag, board: BoardState)
    requires FourPlayers(s) && actor in s.players
    ensures var n := Pay(s, actor, cost).(board := board);
            FourPlayers(n) && n.players.Keys == s.players.Keys
  {
    hide Distinct, WithHand;
    SameKeysWithHand(s.players, actor, s.players[actor].resources.Minus(cost));
  }

  lemma SameKeysWithHand(players: map<PlayerId, PlayerState>, p: PlayerId, hand: Bag)
    requires p in players
    ensures WithHand(players, p, hand).Keys == players.Keys
  {
  }

  lemma PaidPhase(s: GameState, n: GameState)
    requires hide *; Inv(s) && s.turn.phase == Action && s.winner.None? && s.pending.None?
    requires n.playerOrder == s.playerOrder && n.turn == s.turn && n.pending == s.pending && n.winner == s.winner
    ensures |n.playerOrder| == 4 && PhaseInv(n)
  {
    hide Inv, CoreInv, BoardInv, ResourceInv, CardInv, AwardInv, PointInv, Distinct, HandsOf, HoldingsOf, ValidRandomState,
      DiscardInv, MoveInv, TargetInv, FreeRoadInv, OverInv, EffectInv, SetupPhaseInv, PlayedReference;
    PhaseOf(s);
  }

  // Every legal build leaves a board that satisfies the board invariant.
  lemma BuiltBoard(s: GameState, actor: PlayerId, command: Command)
    requires BoardInv(s.board, s.players.Keys) && actor in s.players && KnownEdges(s.board)
    requires command.BuildRoad? || command.BuildSettlement? || command.UpgradeCity?
    requires match command
             case BuildRoad(e) => ValidatePaidRoad(s, actor, e).None?
             case BuildSettlement(v) => ValidatePaidSettlement(s, actor, v).None?
             case UpgradeCity(v) => ValidateCityUpgrade(s, actor, v).None?
    ensures BoardInv(AfterBuild(s, actor, command).board, s.players.Keys)
  {
    hide BoardInv, BuildingsOf, RoadsOf, HasOccupiedNeighbour, ClassifyConnection, KnownEdges;
    match command
    case BuildRoad(e) => LegalRoadKeepsBoard(s.board, s.players.Keys, actor, e);
    case BuildSettlement(v) => SettlementKeepsBoard(s.board, s.players.Keys, actor, v);
    case UpgradeCity(v) => UpgradeKeepsBoard(s.board, s.players.Keys, actor, v);
  }

  function CostOf(command: Command): Bag {
    match command
    case BuildRoad(_) => ROAD_COST
    case BuildSettlement(_) => SETTLEMENT_COST
    case _ => CITY_COST
  }

  lemma BuildIsSafe(s: GameState, env: Envelope)
    requires hide *; Inv(s) && s.turn.phase == Action && s.winner.None? && s.pending.None?
    requires env.actor in s.players && KnownEdges(s.board)
    requires env.command.BuildRoad? || env.command.BuildSettlement? || env.command.UpgradeCity?
    ensures Safe(s, ExecuteBuild(s, env))
  {
    hide Inv, CoreInv, BoardInv, ResourceInv, CardInv, AwardInv, PointInv, PhaseInv, CardAsserts, ScoringAsserts, TradingAsserts,
      BuildingsOf, RoadsOf, HasOccupiedNeighbour, ClassifyConnection, ReconcileAndResolve, FourPlayers, TurnInv,
      ValidRandomState;
    InPlay(s);
    var legal :=
      match env.command
      case BuildRoad(e) => ValidatePaidRoad(s, env.actor, e).None?
      case BuildSettlement(v) => ValidatePaidSettlement(s, env.actor, v).None?
      case UpgradeCity(v) => ValidateCityUpgrade(s, env.actor, v).None?;
    if legal {
      var n := AfterBuild(s, env.actor, env.command);
      BuiltBoard(s, env.actor, env.command);
      PaidCore(s, env.actor, CostOf(env.command), n.board);
      ReconcileAndResolveFacts(n);
      InvAsserts(ReconcileAndResolve(n).state);
    }
  }

  lemma PaidBuildingIsSafe(s: GameState, env: Envelope)
    requires Inv(s) && (env.command.BuildRoad? || env.command.BuildSettlement? || env.command.UpgradeCity?)
    ensures Safe(s, ExecutePaidBuilding(s, env))
  {
    hide Inv, CoreInv, CardAsserts, ScoringAsserts, TradingAsserts, ExecuteBuild, FourPlayers, KnownEdges, ValidRandomState;
    InvAsserts(s);
    if s.turn.phase == Action && s.winner.None? && s.pending.None? && env.actor in s.players {
      BuildIsSafe(s, env);
    }
  }
}
