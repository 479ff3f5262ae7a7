// Where a command leads: the phase of the turn and the decision the table waits for next.

module Stages {
  import opened Board
  import opened Bags
  import opened GameModel
  import opened SeededRandom
  import opened Production
  import opened Rules
  import opened Assertions
  import opened Engine
  import opened InvariantsImplyAssertions
  import opened CardFacts
  import opened Rulebook

  datatype Stage = Stage(phase: Phase, pending: Option<Pending>)

  function StageOf(s: GameState): Stage {
    Stage(s.turn.phase, s.pending)
  }

  // An effect of a card may come before the roll; the turn goes on where it was.
  function Resumed(s: GameState): Stage {
    Stage(if s.turn.lastRoll.None? then RollRequired else Action, None)
  }

  function AfterRobber(s: GameState, cause: RobberCause): Stage {
    if cause.DiceSeven? then Stage(Action, None) else Resumed(s)
  }

  predicate HasTooMany(s: GameState, p: PlayerId) {
    p in s.playerOrder && p in s.players && s.players[p].resources.Total() > 7
  }

  // Everyone with more than seven cards owes half of them, rounded down.
  ghost predicate AwaitsDiscards(s: GameState, next: Stage) {
    && next.phase == DiscardRequired && next.pending.Some? && next.pending.value.DiscardResources?
    && next.pending.value.trigger == s.turn.current && next.pending.value.completed == []
    && (forall p :: p in next.pending.value.required <==> HasTooMany(s, p))
    && forall p :: p in next.pending.value.required ==>
         && p in s.players
         && 2 * next.pending.value.required[p] <= s.players[p].resources.Total() <= 2 * next.pending.value.required[p] + 1
  }

  predicate IsRobbed(s: GameState, actor: PlayerId, tile: TileId, p: PlayerId) {
    && p in s.playerOrder && p in s.players && p != actor && s.players[p].resources.Total() > 0
    && tile in s.board.topology.tiles && TileTouches(s.board, tile, p)
  }

  // The decisions a discard and a move of the robber leave behind.

  ghost predicate DiscardLeads(s: GameState, actor: PlayerId, next: Stage) {
    && s.pending.Some? && s.pending.value.DiscardResources?
    && if exists p :: p != actor && OwesCards(s, p)
       then
         && next.phase == DiscardRequired && next.pending.Some? && next.pending.value.DiscardResources?
         && next.pending.value == s.pending.value.(completed := next.pending.value.completed)
         && forall p :: p in next.pending.value.completed <==>
              p in s.playerOrder && (p == actor || p in s.pending.value.completed)
       else next == Stage(RobberMoveRequired, Some(MoveRobber(s.pending.value.trigger, DiceSeven)))
  }

  ghost predicate MoveLeads(s: GameState, actor: PlayerId, tile: TileId, next: Stage) {
    && s.pending.Some? && s.pending.value.MoveRobber?
    && if exists p :: IsRobbed(s, actor, tile, p)
       then
         && next.phase == RobberTargetRequired && next.pending.Some? && next.pending.value.ChooseRobberTarget?
         && next.pending.value == ChooseRobberTarget(actor, tile, next.pending.value.eligible, s.pending.value.cause)
         && forall p :: p in next.pending.value.eligible <==> IsRobbed(s, actor, tile, p)
       else next == AfterRobber(s, s.pending.value.cause)
  }

  ghost predicate CardLeads(s: GameState, actor: PlayerId, card: OwnedCard, next: Stage) {
    match card.kind
    case Knight => next == Stage(RobberMoveRequired, Some(MoveRobber(actor, KnightCause(card.id))))
    case RoadBuilding =>
      next == Stage(FreeRoadPlacement, Some(PlaceFreeRoads(actor, card.id, if |RoadsOf(s.board, actor)| + 2 <= ROAD_LIMIT then 2 else 1)))
    case Invention => next == Stage(s.turn.phase, Some(ChooseInvention(actor, card.id)))
    case Monopoly => next == Stage(s.turn.phase, Some(ChooseMonopoly(actor, card.id)))
    case VictoryPoint => false
  }

  ghost predicate NextStage(s: GameState, actor: PlayerId, command: Command, next: Stage)
    requires actor in s.players && ValidRandomState(s.random)
  {
    match command
    case PlaceInitialSettlement(_) => next == Stage(SetupRoad, s.pending)
    case PlaceInitialRoad(_) =>
      && s.turn.setup.Some?
      && next == Stage(if s.turn.setup.value.round != 1 && s.turn.setup.value.placementIndex >= 3 then RollRequired else SetupSettlement,
                       s.pending)
    case RollDice =>
      if RollTwoDice(s.random).0.total != 7 then next == Stage(Action, None)
      else if exists p :: HasTooMany(s, p) then AwaitsDiscards(s, next)
      else next == Stage(RobberMoveRequired, Some(MoveRobber(s.turn.current, DiceSeven)))
    case EndTurn => next == Stage(RollRequired, None)
    case Discard(_) => DiscardLeads(s, actor, next)
    case Move(tile) => MoveLeads(s, actor, tile, next)
    case Steal(_) => s.pending.Some? && s.pending.value.ChooseRobberTarget? && next == AfterRobber(s, s.pending.value.cause)
    case BuildRoad(_) =>
      if s.pending.Some? && s.pending.value.PlaceFreeRoads? then
        next == if s.pending.value.remaining == 1 then Resumed(s)
                else Stage(FreeRoadPlacement, Some(s.pending.value.(remaining := 1)))
      else next == Stage(Action, None)
    case PlayCard(id) => exists card :: card in s.players[actor].cards && card.id == id && CardLeads(s, actor, card, next)
    case TakeInvention(_) => next == Stage(s.turn.phase, None)
    case TakeMonopoly(_) => next == Stage(s.turn.phase, None)
    case FinishFreeRoads => next == Resumed(s)
    case ProposeTrade(offer) => next == Stage(Action, Some(RespondToTrade(offer.counterparty, offer, 0)))
    case CounterTrade(_, counter) => next == Stage(s.turn.phase, Some(RespondToTrade(counter.initiator, counter, 1)))
    case AcceptTrade(_) => next == Stage(s.turn.phase, None)
    case RejectTrade(_) => next == Stage(s.turn.phase, None)
    case _ => next == Stage(Action, None)
  }

  // A winner ends the game whatever the command would have led to.
  ghost predicate Leads(s: GameState, actor: PlayerId, command: Command, n: GameState) {
    && actor in s.players && ValidRandomState(s.random)
    && if n.winner.Some? then n.winner.value == n.turn.current && StageOf(n) == Stage(GameOver, None)
    else NextStage(s, actor, command, StageOf(n))
  }

  // Awards leave the stage alone, and a victory is the only thing that overrides it.
  ghost predicate Resolved(n: GameState, result: EngineResult) {
    result.Accepted? ==>
      var r := result.state;
      || (r.winner.None? && StageOf(r) == StageOf(n))
      || (r.winner == Some(r.turn.current) && StageOf(r) == Stage(GameOver, None))
  }

  lemma ResolveStage(n: GameState)
    requires hide *; n.winner.None?
    ensures Resolved(n, ResolveVictory(n)) && Resolved(n, ReconcileAndResolve(n)) && Resolved(n, ReconcileAwards(n))
    ensures ReconcileAwards(n).Accepted? ==> ReconcileAwards(n).state == n.(awards := ReconcileAwards(n).state.awards)
  {
    hide ScoringAsserts, ScoringInputAsserts, DerivedAwards, ActualPoints, RevealPoints;
  }

  lemma SetupLeads(s: GameState, env: Envelope)
    requires hide *; env.actor in s.players && ValidRandomState(s.random)
    requires env.command.PlaceInitialSettlement? || env.command.PlaceInitialRoad?
    ensures var result := ExecuteSetup(s, env); result.Accepted? ==> Leads(s, env.actor, env.command, result.state)
  {
    hide SetupAsserts, ValidateInitialSettlement, ValidateInitialRoad, GrantStartingResources, ValidRandomState;
  }

  // Turns.

  lemma SevenLeads(s: GameState, roll: DiceRoll, random: RandomState)
    requires s.turn.current in s.players && ValidRandomState(s.random)
    requires roll == RollTwoDice(s.random).0 && roll.total == 7
    ensures NextStage(s, s.turn.current, RollDice, StageOf(AfterSeven(s, roll, random)))
  {
    hide RollTwoDice, ValidRandomState, Bag.Total;
    var required := DiscardRequirements(s);
    if p :| HasTooMany(s, p) {
      assert p in required;
    } else {
      forall p ensures p !in required {
        assert !HasTooMany(s, p);
      }
    }
  }

  lemma TurnLeads(s: GameState, env: Envelope)
    requires hide *; env.actor in s.players && ValidRandomState(s.random) && (env.command.RollDice? || env.command.EndTurn?)
    ensures var result := ExecuteNormalTurn(s, env); result.Accepted? ==> Leads(s, env.actor, env.command, result.state)
  {
    hide ScoringAsserts, RollTwoDice, ProductionInputs, ValidRandomState, ResolveVictory, AfterSeven, ProducedPlayers, ProducedBank;
    var (roll, random) := RollTwoDice(s.random);
    if ExecuteNormalTurn(s, env).Accepted? {
      if env.command.EndTurn? {
        var index := IndexOf(s.playerOrder, s.turn.current);
        ResolveStage(AfterTurn(s, s.playerOrder[(index + 1) % |s.playerOrder|]));
      } else if roll.total == 7 {
        SevenLeads(s, roll, random);
        SevenIs(s, roll, random);
      }
    }
  }

  lemma SevenIs(s: GameState, roll: DiceRoll, random: RandomState)
    ensures AfterSeven(s, roll, random).winner == s.winner
  {
  }

  // The robber.

  lemma DiscardStage(s: GameState, actor: PlayerId, selection: Bag)
    requires actor in s.players && s.pending.Some? && s.pending.value.DiscardResources? && Distinct(s.playerOrder)
    ensures var n := AfterDiscard(s, actor, selection); DiscardLeads(s, actor, StageOf(n)) && n.winner == s.winner
  {
    hide FilterOrder, WithHand, Bag.Plus, Bag.Minus;
    var pending := s.pending.value;
    var done := (set p | p in pending.completed) + {actor};
    FilterOrderFacts(s.playerOrder, done);
    forall p ensures p != actor && OwesCards(s, p) <==> p in pending.required && p !in done {
    }
  }

  lemma MoveStage(s: GameState, actor: PlayerId, tile: TileId)
    requires s.pending.Some? && s.pending.value.MoveRobber? && s.pending.value.actor == actor
    requires tile in s.board.topology.tiles && forall p :: p in s.playerOrder ==> p in s.players
    ensures var n := AfterMove(s, tile, EligibleTargets(s.board, s.players, s.playerOrder, tile, actor));
            MoveLeads(s, actor, tile, StageOf(n)) && n.winner == s.winner
  {
    hide EligibleTargets, TileTouches, Bag.Total;
    var targets := EligibleTargets(s.board, s.players, s.playerOrder, tile, actor);
    EligibleTargetFacts(s.board, s.players, s.playerOrder, tile, actor);
    forall p ensures p in targets <==> IsRobbed(s, actor, tile, p) {
    }
    if targets != [] {
      assert IsRobbed(s, actor, tile, targets[0]);
    }
  }

  lemma StealStage(s: GameState, actor: PlayerId, target: PlayerId, r: Resource, random: RandomState)
    requires actor in s.players && target in s.players && s.pending.Some? && s.pending.value.ChooseRobberTarget?
    ensures var n := AfterSteal(s, actor, target, r, random);
            StageOf(n) == AfterRobber(s, s.pending.value.cause) && n.winner == s.winner
  {
  }

  lemma RobberLeads(s: GameState, env: Envelope)
    requires hide *; env.actor in s.players && ValidRandomState(s.random) && (env.command.Discard? || env.command.Move? || env.command.Steal?)
    requires Distinct(s.playerOrder) && forall p :: p in s.playerOrder ==> p in s.players
    ensures var result := ExecuteRobber(s, env); result.Accepted? ==> Leads(s, env.actor, env.command, result.state)
  {
    hide CardAsserts, AfterDiscard, AfterMove, AfterSteal, ResolveVictory, DiscardLeads, MoveLeads, EligibleTargets, DrawRandomResource,
      ValidateDiscard, ValidRandomState, Bag.Complete, Bag.Total;
    if ExecuteRobber(s, env).Accepted? {
      match env.command {
        case Discard(selection) => DiscardStage(s, env.actor, selection);
        case Move(tile) =>
          MoveStage(s, env.actor, tile);
          ResolveStage(AfterMove(s, tile, EligibleTargets(s.board, s.players, s.playerOrder, tile, env.actor)));
        case Steal(target) =>
          var (r, random) := DrawRandomResource(s.players[target].resources, s.random);
          StealStage(s, env.actor, target, r, random);
          ResolveStage(AfterSteal(s, env.actor, target, r, random));
      }
    }
  }

  // Building and cards.

  lemma BuildLeads(s: GameState, env: Envelope)
    requires hide *; env.actor in s.players && ValidRandomState(s.random)
    requires env.command.BuildRoad? || env.command.BuildSettlement? || env.command.UpgradeCity?
    ensures var result := ExecutePaidBuilding(s, env); result.Accepted? ==> Leads(s, env.actor, env.command, result.state)
  {
    hide ScoringAsserts, KnownEdges, ValidatePaidRoad, ValidatePaidSettlement, ValidateCityUpgrade, ReconcileAndResolve, ValidRandomState,
      WithHand, Bag.Plus, Bag.Minus;
    if ExecutePaidBuilding(s, env).Accepted? {
      ResolveStage(AfterBuild(s, env.actor, env.command));
    }
  }

  lemma PlayLeads(s: GameState, actor: PlayerId, id: int)
    requires hide *; actor in s.players && ValidRandomState(s.random) && KnownEdges(s.board) && s.winner.None?
    ensures var result := ExecutePlay(s, actor, id); result.Accepted? ==> Leads(s, actor, PlayCard(id), result.state)
  {
    hide CardAsserts, ReconcileAwards, FindCard, ReplaceStatus, KnownEdges, HasLegalFreeRoad, RoadsOf, ValidRandomState, Bag.Total;
    if ExecutePlay(s, actor, id).Accepted? {
      var cards := s.players[actor].cards;
      var card := FindCard(cards, id).value;
      var i := FindFacts(cards, id);
      var roads := if card.kind == RoadBuilding then RemainingFreeRoadCount(s.board, actor).value else 0;
      assert CardLeads(s, actor, card, StageOf(AfterPlay(s, actor, card, roads)));
      ResolveStage(AfterPlay(s, actor, card, roads));
    }
  }

  lemma FreeRoadLeads(s: GameState, actor: PlayerId, e: EdgeId)
    requires hide *; actor in s.players && ValidRandomState(s.random) && KnownEdges(s.board) && s.winner.None? && s.turn.phase != GameOver
    requires s.pending.Some? && s.pending.value.PlaceFreeRoads? && actor == s.turn.current
    ensures var result := ExecuteFreeRoad(s, actor, e); result.Accepted? ==> Leads(s, actor, BuildRoad(e), result.state)
  {
    hide CardAsserts, ScoringAsserts, ScoringInputAsserts, DerivedAwards, KnownEdges, ValidateFreeRoad, Points, RevealPoints,
      ValidRandomState;
    ResolveStage(AfterFreeRoad(s, actor, e));
  }

  lemma CardsLead(s: GameState, env: Envelope)
    requires hide *; env.actor in s.players && ValidRandomState(s.random)
    requires env.command.BuildRoad? || env.command.FinishFreeRoads? || env.command.TakeInvention? || env.command.TakeMonopoly?
             || env.command.BuyCard? || env.command.PlayCard?
    requires s.pending.Some? && s.pending.value.PlaceFreeRoads? ==> s.pending.value.actor == s.turn.current
    ensures var result := ExecuteCards(s, env); result.Accepted? ==> Leads(s, env.actor, env.command, result.state)
  {
    hide CardAsserts, KnownEdges, ExecuteFreeRoad, ExecutePlay, ReconcileAndResolve, HasLegalFreeRoad, ValidateInvention, MonopolyPlayers,
      WithHand, ValidRandomState, Bag.Plus, Bag.Minus, Bag.Covers;
    if ExecuteCards(s, env).Accepted? {
      match env.command {
        case BuyCard => ResolveStage(AfterBuy(s, env.actor));
        case PlayCard(id) => PlayLeads(s, env.actor, id);
        case BuildRoad(e) => FreeRoadLeads(s, env.actor, e);
        case _ =>
      }
    }
  }

  // Trading.

  lemma TradingLeads(s: GameState, env: Envelope)
    requires hide *; env.actor in s.players && ValidRandomState(s.random)
    requires env.command.AcceptTrade? || env.command.RejectTrade? || env.command.CounterTrade?
             || env.command.ProposeTrade? || env.command.MaritimeTrade?
    ensures var result := ExecuteTrading(s, env); result.Accepted? ==> Leads(s, env.actor, env.command, result.state)
  {
    hide TradingAsserts, ValidInitialParties, ValidCounterLineage, ValidBundles, Overlaps, MaritimeRatio, WithHand, ValidRandomState,
      Bag.Complete, Bag.Covers, Bag.Get, Bag.Set, Bag.Plus, Bag.Minus;
  }

  // Every accepted command leads where the table says.
  lemma ExecutionLeads(s: GameState, env: Envelope)
    requires hide *; env.actor in s.players && ValidRandomState(s.random)
    requires Distinct(s.playerOrder) && forall p :: p in s.playerOrder ==> p in s.players
    requires s.pending.Some? && s.pending.value.PlaceFreeRoads? ==> s.pending.value.actor == s.turn.current
    ensures var result := Execute(s, env); result.Accepted? ==> Leads(s, env.actor, env.command, result.state)
  {
    hide TradingAsserts, ExecuteSetup, ExecuteNormalTurn, ExecuteRobber, ExecutePaidBuilding, ExecuteCards, ExecuteTrading, Leads,
      ValidRandomState;
    match env.command
    case PlaceInitialSettlement(_) => SetupLeads(s, env);
    case PlaceInitialRoad(_) => SetupLeads(s, env);
    case RollDice => TurnLeads(s, env);
    case EndTurn => TurnLeads(s, env);
    case Discard(_) => RobberLeads(s, env);
    case Move(_) => RobberLeads(s, env);
    case Steal(_) => RobberLeads(s, env);
    case BuildSettlement(_) => BuildLeads(s, env);
    case UpgradeCity(_) => BuildLeads(s, env);
    case BuildRoad(_) =>
      BuildLeads(s, env);
      CardsLead(s, env);
    case BuyCard => CardsLead(s, env);
    case PlayCard(_) => CardsLead(s, env);
    case TakeInvention(_) => CardsLead(s, env);
    case TakeMonopoly(_) => CardsLead(s, env);
    case FinishFreeRoads => CardsLead(s, env);
    case _ => TradingLeads(s, env);
  }
}
