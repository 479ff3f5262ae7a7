// Every refusal names a ground, and the ground holds.

module Refusals {
  import opened Board
  import opened Bags
  import opened GameModel
  import Words
  import opened SeededRandom
  import opened Production
  import opened Rules
  import opened Assertions
  import opened Engine
  import opened Invariants
  import opened InvariantsImplyAssertions
  import opened Frames
  import opened TurnSafety
  import opened RobberSafety
  import opened Reachability
  import opened Progress
  import opened Rulebook
  import opened EngineRules

  // The decision a command answers.
  predicate IsAnswerTo(pending: Pending, command: Command) {
    match pending
    case DiscardResources(_, _, _) => command.Discard?
    case MoveRobber(_, _) => command.Move?
    case ChooseRobberTarget(_, _, _, _) => command.Steal?
    case PlaceFreeRoads(_, _, _) => command.BuildRoad? || command.FinishFreeRoads?
    case ChooseInvention(_, _) => command.TakeInvention?
    case ChooseMonopoly(_, _) => command.TakeMonopoly?
    case RespondToTrade(_, _, _) => command.AcceptTrade? || command.RejectTrade? || command.CounterTrade?
  }

  // The time a command is for.
  predicate IsTimeFor(s: GameState, command: Command) {
    match command
    case PlaceInitialSettlement(_) => s.turn.phase == SetupSettlement
    case PlaceInitialRoad(_) => s.turn.phase == SetupRoad
    case RollDice => s.turn.phase == RollRequired
    case Discard(_) => s.turn.phase == DiscardRequired
    case Move(_) => s.turn.phase == RobberMoveRequired
    case Steal(_) => s.turn.phase == RobberTargetRequired
    case BuildRoad(_) => s.turn.phase == Action || s.turn.phase == FreeRoadPlacement
    case FinishFreeRoads => s.turn.phase == FreeRoadPlacement
    case PlayCard(_) => s.turn.phase == RollRequired || s.turn.phase == Action
    case TakeInvention(_) => s.pending.Some? && s.pending.value.ChooseInvention?
    case TakeMonopoly(_) => s.pending.Some? && s.pending.value.ChooseMonopoly?
    case _ => s.turn.phase == Action
  }

  // What the player would have to give up.
  function Dues(s: GameState, actor: PlayerId, command: Command): Bag {
    match command
    case ProposeTrade(offer) => offer.initiatorGives
    case CounterTrade(_, counter) => counter.counterpartyGives
    case MaritimeTrade(give, _) => Cards(Rate(s.board, actor, give), give)
    case _ => Price(command)
  }

  // An own road that ends at the vertex, other than the one to be built.
  predicate HasOtherRoadAt(b: BoardState, p: PlayerId, v: VertexId, e: EdgeId) {
    v in b.topology.vertices && exists other :: other in b.roads && b.roads[other] == p && other != e && other in b.topology.vertices[v].edgeIds
  }

  predicate IsCutAt(b: BoardState, p: PlayerId, v: VertexId, e: EdgeId) {
    v in b.buildings && b.buildings[v].owner != p && HasOtherRoadAt(b, p, v, e)
  }

  predicate GoesOnAt(b: BoardState, p: PlayerId, v: VertexId, e: EdgeId) {
    if v in b.buildings then b.buildings[v].owner == p else HasOtherRoadAt(b, p, v, e)
  }

  predicate GivesNothing(bag: Bag) {
    (exists r :: bag.Get(r) < 0) || (forall r :: bag.Get(r) == 0)
  }

  predicate OfferOf(command: Command, offer: TradeOffer) {
    command == ProposeTrade(offer) || (command.CounterTrade? && command.counter == offer)
  }

  // No road site: not next to the pending settlement, not next to the own network, or cut off
  // from it by somebody's building.
  predicate IsUnconnected(s: GameState, actor: PlayerId, command: Command, cut: bool) {
    match command
    case PlaceInitialRoad(e) =>
      && !cut && e in s.board.topology.edges
      && (s.turn.setup.Some? ==> s.turn.setup.value.pendingVertex != Some(s.board.topology.edges[e].a)
                                 && s.turn.setup.value.pendingVertex != Some(s.board.topology.edges[e].b))
    case BuildRoad(e) =>
      && e in s.board.topology.edges
      && (var d := s.board.topology.edges[e];
          && !GoesOnAt(s.board, actor, d.a, e) && !GoesOnAt(s.board, actor, d.b, e)
          && (cut <==> IsCutAt(s.board, actor, d.a, e) || IsCutAt(s.board, actor, d.b, e)))
    case BuildSettlement(v) => !cut && v in s.board.topology.vertices && !HasRoadTo(s.board, actor, v)
    case _ => false
  }

  predicate IsOutOfPieces(b: BoardState, p: PlayerId, command: Command) {
    match command
    case PlaceInitialSettlement(_) => |BuildingsOf(b, p, Settlement)| >= 5
    case BuildSettlement(_) => |BuildingsOf(b, p, Settlement)| >= 5
    case UpgradeCity(_) => |BuildingsOf(b, p, City)| >= 4
    case PlaceInitialRoad(_) => |RoadsOf(b, p)| >= 15
    case BuildRoad(_) => |RoadsOf(b, p)| >= 15
    case _ => false
  }

  predicate IsIllegalVertex(b: BoardState, p: PlayerId, command: Command) {
    match command
    case PlaceInitialSettlement(v) => v !in b.topology.vertices || v in b.buildings
    case BuildSettlement(v) => v !in b.topology.vertices || v in b.buildings
    case UpgradeCity(v) => v !in b.topology.vertices || v !in b.buildings || b.buildings[v] != Building(Settlement, p)
    case _ => false
  }

  predicate IsTooClose(b: BoardState, command: Command) {
    (command.PlaceInitialSettlement? || command.BuildSettlement?)
    && var v := if command.PlaceInitialSettlement? then command.vertexId else command.siteId;
       v in b.topology.vertices && exists w :: w in b.topology.vertices[v].adjacentVertexIds && w in b.buildings
  }

  ghost predicate CannotPlay(s: GameState, actor: PlayerId, command: Command) {
    match command
    case PlayCard(id) => actor in s.players && exists card :: IsNamedCard(s.players[actor].cards, card, id) && !IsPlayable(s, actor, card)
    case TakeInvention(selection) => !selection.Complete() || selection.Total() != 2
    case FinishFreeRoads => (s.pending.Some? && s.pending.value.PlaceFreeRoads? && s.pending.value.remaining != 1)
                            || exists e :: IsOpenEdge(s.board, actor, e)
    case _ => false
  }

  predicate IsNoTarget(s: GameState, actor: PlayerId, target: PlayerId) {
    || target == actor || target !in s.players || s.players[target].resources.Total() <= 0
    || s.board.robberTileId !in s.board.topology.tiles || !TileTouches(s.board, s.board.robberTileId, target)
  }

  predicate IsWrongParty(s: GameState, actor: PlayerId, command: Command) {
    match command
    case ProposeTrade(offer) => !IsOwnOffer(s, actor, offer)
    case CounterTrade(_, counter) =>
      s.pending.Some? && s.pending.value.RespondToTrade?
      && (actor != s.pending.value.responder || !IsCounterTo(s.pending.value.offer, actor, counter))
    case AcceptTrade(_) => s.pending.Some? && s.pending.value.RespondToTrade? && actor != s.pending.value.responder
    case RejectTrade(_) => s.pending.Some? && s.pending.value.RespondToTrade? && actor != s.pending.value.responder
    case _ => false
  }

  predicate LacksTradeCards(s: GameState, actor: PlayerId, command: Command) {
    if command.AcceptTrade? then
      s.pending.Some? && s.pending.value.RespondToTrade?
      && (var offer := s.pending.value.offer;
          !Holds(s, offer.initiator, offer.initiatorGives) || !Holds(s, offer.counterparty, offer.counterpartyGives))
    else (command.ProposeTrade? || command.CounterTrade?) && !Holds(s, actor, Dues(s, actor, command))
  }

  ghost predicate Explains(s: GameState, env: Envelope, violation: Violation) {
    match violation
    case StaleStateVersion => env.expectedStateVersion != s.stateVersion
    case UnknownActor => env.actor !in s.players
    case GameIsOver => s.winner.Some?
    case NotYourTurn => env.actor != s.turn.current
    case WrongPhase => !IsTimeFor(s, env.command)
    case PendingDecisionRequired => s.pending.Some? && !IsAnswerTo(s.pending.value, env.command)
    case InsufficientResources => !Holds(s, env.actor, Dues(s, env.actor, env.command))
    case InsufficientPieces => IsOutOfPieces(s.board, env.actor, env.command)
    case BankResourceUnavailable =>
      || (env.command.TakeInvention? && !s.bank.resources.Covers(env.command.selection))
      || (env.command.MaritimeTrade? && s.bank.resources.Get(env.command.receive) < 1)
    case DevelopmentDeckEmpty => env.command.BuyCard? && s.bank.deck == []
    case CardNotOwned =>
      env.command.PlayCard? && env.actor in s.players && forall card :: card in s.players[env.actor].cards ==> card.id != env.command.cardId
    case CardNotPlayable => CannotPlay(s, env.actor, env.command)
    case CardLimitReached => env.command.PlayCard? && s.turn.cardPlayed
    case IllegalVertex => IsIllegalVertex(s.board, env.actor, env.command)
    case IllegalEdge =>
      || (env.command.PlaceInitialRoad? && (env.command.edgeId !in s.board.topology.edges || env.command.edgeId in s.board.roads))
      || (env.command.BuildRoad? && (env.command.roadEdgeId !in s.board.topology.edges || env.command.roadEdgeId in s.board.roads))
    case DistanceRuleViolation => IsTooClose(s.board, env.command)
    case RoadNotConnected => IsUnconnected(s, env.actor, env.command, false)
    case RoadBlocked => IsUnconnected(s, env.actor, env.command, true)
    case InvalidRobberTile =>
      env.command.Move? && (env.command.tileId !in s.board.topology.tiles || env.command.tileId == s.board.robberTileId)
    case InvalidRobberTarget => env.command.Steal? && IsNoTarget(s, env.actor, env.command.target)
    case InvalidDiscard =>
      && env.command.Discard? && env.actor in s.players
      && (!OwesCards(s, env.actor) || !IsHalf(env.command.resources, s.players[env.actor].resources))
    case TradeNotAllowed => env.command.CounterTrade? && s.pending.Some? && s.pending.value.RespondToTrade? && s.pending.value.counterDepth == 1
    case InvalidTradeOffer =>
      exists offer :: OfferOf(env.command, offer) && (GivesNothing(offer.initiatorGives) || GivesNothing(offer.counterpartyGives))
    case TradePartyMismatch => IsWrongParty(s, env.actor, env.command)
    case TradeResourceUnavailable => LacksTradeCards(s, env.actor, env.command)
    case TradeNotPending =>
      && NamedTrade(env.command).Some?
      && (s.pending.Some? && s.pending.value.RespondToTrade? ==> NamedTrade(env.command) != Some(s.pending.value.offer.tradeId))
    case SameResourceTrade =>
      || (env.command.MaritimeTrade? && env.command.give == env.command.receive)
      || exists offer, r :: OfferOf(env.command, offer) && offer.initiatorGives.Get(r) > 0 && offer.counterpartyGives.Get(r) > 0
  }

  ghost predicate Grounded(s: GameState, env: Envelope, result: EngineResult) {
    result.Rejected? ==> Explains(s, env, result.violation)
  }

  // What holds when a sub-engine has passed the guards that all of them share.
  ghost predicate Playing(s: GameState, env: Envelope) {
    && Inv(s) && s.winner.None? && Coherent(s) && ValidRandomState(s.random)
    && (forall p :: p in s.playerOrder <==> p in s.players)
  }

  lemma CommonIs(s: GameState, env: Envelope)
    requires hide *; s.turn.phase == GameOver ==> s.winner.Some?
    ensures CommonGuard(s, env).Some? ==> Explains(s, env, CommonGuard(s, env).value)
    ensures CommonGuard(s, env).None? ==> env.actor in s.players && s.winner.None?
  {
  }

  // Roads and buildings.

  lemma RoadGround(s: GameState, env: Envelope, e: EdgeId)
    requires KnownEdges(s.board) && env.command == BuildRoad(e)
    ensures e in s.board.topology.edges ==> KnownEnds(s.board, e)
    ensures ValidateFreeRoad(s.board, env.actor, e).Some? ==> Explains(s, env, ValidateFreeRoad(s.board, env.actor, e).value)
  {
    hide RoadsOf, HasRoadAt, HasOtherRoadAt;
    if e in s.board.topology.edges {
      var d := s.board.topology.edges[e];
      RoadAtIs(s.board, env.actor, d.a, e);
      RoadAtIs(s.board, env.actor, d.b, e);
    }
  }

  lemma RoadAtIs(b: BoardState, p: PlayerId, v: VertexId, e: EdgeId)
    requires v in b.topology.vertices
    ensures HasRoadAt(b, p, v, e) <==> HasOtherRoadAt(b, p, v, e)
  {
    if other :| other in b.topology.vertices[v].edgeIds && other != e && OwnsRoad(b, p, other) {
      assert other in b.roads && b.roads[other] == p;
    }
    if other :| other in b.roads && b.roads[other] == p && other != e && other in b.topology.vertices[v].edgeIds {
      assert OwnsRoad(b, p, other);
    }
  }

  lemma BuildGround(s: GameState, env: Envelope)
    requires hide *; KnownEdges(s.board) && env.actor in s.players
    requires env.command.BuildRoad? || env.command.BuildSettlement? || env.command.UpgradeCity?
    ensures Grounded(s, env, ExecuteBuild(s, env))
  {
    hide ReconcileAndResolve, AfterBuild, ScoringAsserts, BuildingsOf, HasRoadTo, OwnsRoad, ValidateFreeRoad, IsUnconnected, KnownEdges, KnownEnds;
    ReconcileSettles(AfterBuild(s, env.actor, env.command));
    match env.command
    case BuildRoad(e) => RoadGround(s, env, e);
    case BuildSettlement(v) => SiteGround(s, env, v);
    case UpgradeCity(_) =>
  }

  lemma SiteGround(s: GameState, env: Envelope, v: VertexId)
    requires hide *; env.actor in s.players && env.command == BuildSettlement(v)
    ensures ValidatePaidSettlement(s, env.actor, v).Some? ==> Explains(s, env, ValidatePaidSettlement(s, env.actor, v).value)
  {
    hide BuildingsOf, OwnsRoad;
  }

  lemma PaidGround(s: GameState, env: Envelope)
    requires hide *; Playing(s, env) && (env.command.BuildRoad? || env.command.BuildSettlement? || env.command.UpgradeCity?)
    requires env.command.BuildRoad? ==>
               !(s.turn.phase == FreeRoadPlacement || (s.pending.Some? && s.pending.value.PlaceFreeRoads?))
    ensures Grounded(s, env, ExecutePaidBuilding(s, env))
  {
    hide Inv, ScoringAsserts, KnownEdges, ExecuteBuild, Coherent, IsUnconnected, IsOutOfPieces, CannotPlay;
    NotOverYet(s);
    CommonIs(s, env);
    if KnownEdges(s.board) && env.actor in s.players {
      BuildGround(s, env);
    }
  }

  lemma NotOverYet(s: GameState)
    requires hide *; Coherent(s)
    ensures s.turn.phase != GameOver
  {
  }

  // Setup and turns.

  lemma SetupGround(s: GameState, env: Envelope)
    requires hide *; Playing(s, env) && CommonGuard(s, env).None? && (env.command.PlaceInitialSettlement? || env.command.PlaceInitialRoad?)
    ensures Grounded(s, env, ExecuteSetup(s, env))
  {
    hide Inv, SetupAsserts, GrantStartingResources, NextSetupTurn, BuildingsOf, RoadsOf, Coherent;
    InSetupAnswersNothing(s);
  }

  lemma InSetupAnswersNothing(s: GameState)
    requires hide *; Coherent(s)
    ensures InSetup(s) ==> s.pending.None?
  {
  }

  lemma TurnGround(s: GameState, env: Envelope)
    requires hide *; Playing(s, env) && CommonGuard(s, env).None? && (env.command.RollDice? || env.command.EndTurn?)
    ensures Grounded(s, env, ExecuteNormalTurn(s, env))
  {
    hide Inv, ScoringAsserts, ExecuteRoll, ExecuteEndTurn, Coherent;
    TurnsAreGranted(s);
  }

  lemma TurnsAreGranted(s: GameState)
    requires hide *; ValidRandomState(s.random)
    ensures !ExecuteRoll(s).Rejected? && !ExecuteEndTurn(s).Rejected?
  {
    hide ScoringAsserts, ProductionInputs, AfterSeven, AfterProduction, RollTwoDice, ResolveVictory;
    var index := IndexOf(s.playerOrder, s.turn.current);
    if index >= 0 {
      ResolveSettles(AfterTurn(s, s.playerOrder[(index + 1) % |s.playerOrder|]));
    }
  }

  // The robber.

  lemma DiscardGround(s: GameState, env: Envelope)
    requires hide *; Playing(s, env) && env.command.Discard? && s.turn.phase == DiscardRequired
    requires s.pending.Some? && s.pending.value.DiscardResources? && env.actor in s.players
    ensures Grounded(s, env, ExecuteDiscard(s, env.actor, env.command.resources))
  {
    hide Inv, CardAsserts, AfterDiscard, Coherent;
    if OwesCards(s, env.actor) {
      OwedIsHalf(s, env.actor);
    }
  }

  lemma StealGround(s: GameState, env: Envelope)
    requires hide *; Playing(s, env) && env.command.Steal? && s.turn.phase == RobberTargetRequired
    requires ValidRandomState(s.random) && env.actor in s.players
    requires s.pending.Some? && s.pending.value.ChooseRobberTarget? && s.pending.value.actor == s.turn.current
    ensures Grounded(s, env, ExecuteSteal(s, env.actor, env.command.target))
  {
    hide Inv, CardAsserts, AfterSteal, ResolveVictory, DrawRandomResource, TileTouches, ValidRandomState, Coherent;
    TargetIs(s, env.command.target);
    var target := env.command.target;
    if target in s.players && s.players[target].resources.Complete() && 0 < s.players[target].resources.Total() <= Words.UINT32_RANGE {
      var (resource, random) := DrawRandomResource(s.players[target].resources, s.random);
      if env.actor in s.players {
        ResolveSettles(AfterSteal(s, env.actor, target, resource, random));
      }
    }
  }

  lemma MoveGround(s: GameState, env: Envelope)
    requires hide *; Playing(s, env) && env.command.Move? && forall p :: p in s.playerOrder ==> p in s.players
    requires s.pending.Some? && s.pending.value.MoveRobber? && s.pending.value.actor == s.turn.current
    ensures Grounded(s, env, ExecuteMove(s, env.actor, env.command.tileId))
  {
    hide Inv, CardAsserts, AfterMove, ResolveVictory, EligibleTargets, Coherent;
    if env.command.tileId in s.board.topology.tiles {
      ResolveSettles(AfterMove(s, env.command.tileId,
                               EligibleTargets(s.board, s.players, s.playerOrder, env.command.tileId, env.actor)));
    }
  }

  lemma RobberGround(s: GameState, env: Envelope)
    requires hide *; Playing(s, env) && CommonGuard(s, env).None? && (env.command.Discard? || env.command.Move? || env.command.Steal?)
    ensures Grounded(s, env, ExecuteRobber(s, env))
  {
    hide Inv, CardAsserts, ExecuteDiscard, ExecuteMove, ExecuteSteal, ValidRandomState;
    if s.pending.Some? && PendingMatches(s.pending.value, env.command) && s.turn.phase == RobberPhase(env.command) {
      match env.command
      case Discard(_) => DiscardGround(s, env);
      case Move(_) => MoveGround(s, env);
      case Steal(_) => StealGround(s, env);
    }
  }

  // Cards.

  lemma PlayGround(s: GameState, env: Envelope)
    requires hide *; Playing(s, env) && env.command.PlayCard? && env.actor in s.players && KnownEdges(s.board)
    ensures Grounded(s, env, ExecutePlay(s, env.actor, env.command.cardId))
  {
    hide Inv, CardAsserts, ReconcileAwards, AfterPlay, FindCard, IsOpenEdge, KnownEdges, RemainingFreeRoadCount, Coherent, Bag.Total;
    FoundIs(s.players[env.actor].cards, env.command.cardId);
    RemainingIs(s.board, env.actor);
    var found := FindCard(s.players[env.actor].cards, env.command.cardId);
    if found.Some? {
      assert IsNamedCard(s.players[env.actor].cards, found.value, env.command.cardId);
      forall roads {
        ReconcileSettles(AfterPlay(s, env.actor, found.value, roads));
      }
    }
  }

  lemma {:induction false} FoundIs(cards: seq<OwnedCard>, id: int)
    ensures FindCard(cards, id).Some? ==> FindCard(cards, id).value in cards && FindCard(cards, id).value.id == id
    ensures FindCard(cards, id).None? ==> forall card :: card in cards ==> card.id != id
  {
    if cards != [] {
      FoundIs(cards[1..], id);
    }
  }

  lemma RemainingIs(b: BoardState, p: PlayerId)
    requires KnownEdges(b)
    ensures RemainingFreeRoadCount(b, p).None? ==> forall e :: !IsOpenEdge(b, p, e)
    ensures HasLegalFreeRoad(b, p) ==> exists e :: IsOpenEdge(b, p, e)
  {
    hide IsOpenEdge, RoadsOf, ValidateFreeRoad;
    forall e
      ensures IsOpenEdge(b, p, e) <==> e in b.topology.edges && ValidateFreeRoad(b, p, e).None?
      ensures IsOpenEdge(b, p, e) ==> |RoadsOf(b, p)| < ROAD_LIMIT
    {
      FreeRoadRule(b, p, e);
      OpenIsKnown(b, p, e);
    }
  }

  lemma OpenIsKnown(b: BoardState, p: PlayerId, e: EdgeId)
    ensures IsOpenEdge(b, p, e) ==> e in b.topology.edges && |RoadsOf(b, p)| < ROAD_LIMIT
  {
    hide RoadsOf, Continues;
  }

  lemma FreeRoadGround(s: GameState, env: Envelope)
    requires hide *; env.command.BuildRoad? && env.actor in s.players && KnownEdges(s.board)
    requires s.pending.Some? && s.pending.value.PlaceFreeRoads?
    ensures Grounded(s, env, ExecuteFreeRoad(s, env.actor, env.command.roadEdgeId))
  {
    hide CardAsserts, ReconcileAwards, ResolveVictory, AfterFreeRoad, ValidateFreeRoad, KnownEdges, ActualPoints, IsUnconnected;
    RoadGround(s, env, env.command.roadEdgeId);
    var n := AfterFreeRoad(s, env.actor, env.command.roadEdgeId);
    ReconcileSettles(n);
    if ReconcileAwards(n).Accepted? {
      var after := ReconcileAwards(n).state;
      ResolveSettles(after.(turn := after.turn.(phase := ResumePhase(after)), pending := None));
    }
  }

  lemma EffectGround(s: GameState, env: Envelope)
    requires hide *; Playing(s, env) && env.actor in s.players && KnownEdges(s.board) && forall p :: p in s.playerOrder ==> p in s.players
    requires env.command.BuildRoad? || env.command.FinishFreeRoads? || env.command.TakeInvention? || env.command.TakeMonopoly?
    requires env.command.BuildRoad? ==> s.turn.phase == FreeRoadPlacement || (s.pending.Some? && s.pending.value.PlaceFreeRoads?)
    ensures Grounded(s, env, ExecutePendingEffect(s, env))
  {
    hide Inv, CardAsserts, ExecuteFreeRoad, KnownEdges, HasLegalFreeRoad, AfterFinish, AfterInvention, AfterMonopoly, ValidRandomState,
      IsOpenEdge;
    RemainingIs(s.board, env.actor);
    if s.pending.Some? && s.pending.value.PlaceFreeRoads? && env.command.BuildRoad? {
      FreeRoadGround(s, env);
    }
  }

  lemma CardsGround(s: GameState, env: Envelope)
    requires hide *; Playing(s, env) && CommonGuard(s, env).None?
    requires env.command.BuildRoad? || env.command.FinishFreeRoads? || env.command.TakeInvention?
             || env.command.TakeMonopoly? || env.command.BuyCard? || env.command.PlayCard?
    requires env.command.BuildRoad? ==> s.turn.phase == FreeRoadPlacement || (s.pending.Some? && s.pending.value.PlaceFreeRoads?)
    ensures Grounded(s, env, ExecuteCards(s, env))
  {
    hide Inv, CardAsserts, ExecutePendingEffect, ExecutePlay, KnownEdges, ValidRandomState, ReconcileAndResolve, AfterBuy, Coherent, CannotPlay;
    if KnownEdges(s.board) && env.actor in s.players {
      if env.command.BuyCard? {
        if s.bank.deck != [] {
          ReconcileSettles(AfterBuy(s, env.actor));
        }
      } else if env.command.PlayCard? {
        PlayGround(s, env);
      } else {
        EffectGround(s, env);
      }
    }
  }

  // Trades.

  lemma OfferGround(s: GameState, env: Envelope, offer: TradeOffer)
    requires OfferOf(env.command, offer)
    ensures !ValidBundles(offer) ==> Explains(s, env, InvalidTradeOffer)
    ensures Overlaps(offer.initiatorGives, offer.counterpartyGives) ==> Explains(s, env, SameResourceTrade)
  {
    hide Bag.Get, Bag.Complete, Bag.Total, Overlaps;
    NothingGiven(offer.initiatorGives);
    NothingGiven(offer.counterpartyGives);
    if Overlaps(offer.initiatorGives, offer.counterpartyGives) {
      var r := OverlapIs(offer.initiatorGives, offer.counterpartyGives);
    }
  }

  lemma NothingGiven(bag: Bag)
    ensures !bag.Complete() || bag.Total() <= 0 ==> GivesNothing(bag)
  {
    if !bag.Complete() {
      assert bag.Get(Lumber) < 0 || bag.Get(Brick) < 0 || bag.Get(Wool) < 0 || bag.Get(Grain) < 0 || bag.Get(Ore) < 0;
    }
  }

  lemma OverlapIs(a: Bag, b: Bag) returns (r: Resource)
    requires Overlaps(a, b)
    ensures a.Get(r) > 0 && b.Get(r) > 0
  {
    r := if a.lumber > 0 && b.lumber > 0 then Lumber else if a.brick > 0 && b.brick > 0 then Brick
         else if a.wool > 0 && b.wool > 0 then Wool else if a.grain > 0 && b.grain > 0 then Grain else Ore;
  }

  lemma ProposalGround(s: GameState, env: Envelope)
    requires hide *; Playing(s, env) && env.command.ProposeTrade? && env.actor == s.turn.current && env.actor in s.players
    ensures Grounded(s, env, ExecuteProposal(s, env.actor, env.command.offer))
  {
    hide Inv, TradingAsserts, NonBlank, Overlaps, Bag.Covers, Bag.Complete, Bag.Total, Coherent, ValidRandomState;
    OfferGround(s, env, env.command.offer);
    OffersAre(s, env.actor, env.command.offer);
  }

  lemma CounterGround(s: GameState, env: Envelope)
    requires hide *; Playing(s, env) && env.command.CounterTrade? && s.pending.Some? && s.pending.value.RespondToTrade?
    requires env.actor == s.pending.value.responder
    ensures Grounded(s, env, ExecuteCounter(s, env.actor, env.command.counter))
  {
    hide Inv, TradingAsserts, NonBlank, Overlaps, Bag.Covers, Bag.Complete, Bag.Total, Coherent, ValidRandomState;
    OfferGround(s, env, env.command.counter);
    OffersAre(s, env.actor, env.command.counter);
  }

  lemma TradeGround(s: GameState, env: Envelope)
    requires hide *; Playing(s, env) && CommonGuard(s, env).None?
    requires env.command.AcceptTrade? || env.command.RejectTrade? || env.command.CounterTrade?
             || env.command.ProposeTrade? || env.command.MaritimeTrade?
    ensures Grounded(s, env, ExecuteTrading(s, env))
  {
    hide Inv, TradingAsserts, ExecuteCounter, ExecuteProposal, ValidRandomState, Overlaps, ValidBundles, Coherent, AfterTrade, AfterMaritime,
      IsOwnOffer, IsCounterTo, MaritimeRatio, Rate;
    if env.command.ProposeTrade? && env.actor == s.turn.current {
      ProposalGround(s, env);
    }
    if env.command.CounterTrade? && s.pending.Some? && s.pending.value.RespondToTrade? && env.actor == s.pending.value.responder {
      CounterGround(s, env);
    }
    if env.command.MaritimeTrade? {
      RateIs(s.board, env.actor, env.command.give);
      RateIsPositive(s.board, env.actor, env.command.give);
    }
    if env.command.AcceptTrade? && s.pending.Some? && s.pending.value.RespondToTrade? {
      PartiesHaveCards(s);
    }
  }

  lemma RateIsPositive(b: BoardState, p: PlayerId, give: Resource)
    ensures Rate(b, p, give) >= 2
  {
    hide OwnsPort;
  }

  // An offer on the table has valid bundles.
  lemma PartiesHaveCards(s: GameState)
    requires hide *; Inv(s) && s.pending.Some? && s.pending.value.RespondToTrade?
    ensures s.pending.value.offer.initiatorGives.Complete() && s.pending.value.offer.counterpartyGives.Complete()
  {
    hide Inv, CoreInv;
    InvAsserts(s);
  }

  // All of it.

  lemma GuardGround(s: GameState, env: Envelope)
    requires hide *; CommonGuard(s, env).Some? && (s.turn.phase == GameOver ==> s.winner.Some?)
    ensures Grounded(s, env, Execute(s, env))
  {
    hide TradingAsserts, CardAsserts, ScoringAsserts, SetupAsserts, KnownEdges, Explains, CommonGuard;
    CommonIs(s, env);
  }

  lemma PlayingGround(s: GameState, env: Envelope)
    requires hide *; Playing(s, env) && CommonGuard(s, env).None?
    ensures Grounded(s, env, Execute(s, env))
  {
    hide Playing, TradingAsserts, CommonGuard, Grounded, ExecuteSetup, ExecuteNormalTurn, ExecuteRobber, ExecutePaidBuilding, ExecuteCards,
      ExecuteTrading;
    NothingIsRejected(s, env);
    match env.command {
      case PlaceInitialSettlement(_) => SetupGround(s, env);
      case PlaceInitialRoad(_) => SetupGround(s, env);
      case RollDice => TurnGround(s, env);
      case EndTurn => TurnGround(s, env);
      case Discard(_) => RobberGround(s, env);
      case Move(_) => RobberGround(s, env);
      case Steal(_) => RobberGround(s, env);
      case BuildSettlement(_) => PaidGround(s, env);
      case UpgradeCity(_) => PaidGround(s, env);
      case BuildRoad(_) =>
        if s.turn.phase == FreeRoadPlacement || (s.pending.Some? && s.pending.value.PlaceFreeRoads?) {
          CardsGround(s, env);
        } else {
          PaidGround(s, env);
        }
      case BuyCard => CardsGround(s, env);
      case PlayCard(_) => CardsGround(s, env);
      case TakeInvention(_) => CardsGround(s, env);
      case TakeMonopoly(_) => CardsGround(s, env);
      case FinishFreeRoads => CardsGround(s, env);
      case _ => TradeGround(s, env);
    }
  }

  lemma NothingIsRejected(s: GameState, env: Envelope)
    ensures Grounded(s, env, Threw)
  {
  }

  // In every reachable state, whatever is refused is refused for a reason that holds.
  lemma RefusalsAreTrue(s: GameState, env: Envelope)
    requires Reachable(s) && Execute(s, env).Rejected?
    ensures Explains(s, env, Execute(s, env).violation)
  {
    hide Reachable, Inv, Execute, Explains, CommonGuard, Coherent, ValidRandomState;
    ReachableInv(s);
    Basics(s);
    if CommonGuard(s, env).Some? {
      OverIsWon(s);
      GuardGround(s, env);
    } else {
      NoGuard(s, env);
      PendingFits(s);
      PlayingGround(s, env);
    }
  }

  lemma NoGuard(s: GameState, env: Envelope)
    requires CommonGuard(s, env).None?
    ensures s.winner.None?
  {
  }

  lemma OverIsWon(s: GameState)
    requires Inv(s)
    ensures s.turn.phase == GameOver ==> s.winner.Some?
  {
    hide Inv, CoreInv, Rules.Points;
    InvWinner(s);
  }
}
