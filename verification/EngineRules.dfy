// The engine accepts exactly the commands the rulebook allows and does exactly what it says.

module EngineRules {
  import opened Board
  import opened Bags
  import opened GameModel
  import opened LongestRoad
  import Words
  import opened SeededRandom
  import opened Production
  import opened Harvest
  import opened Rules
  import opened Assertions
  import opened Engine
  import opened Invariants
  import opened InvariantsImplyAssertions
  import opened Geometry
  import opened Frames
  import opened SetupSafety
  import opened TurnSafety
  import opened RobberSafety
  import opened BuildSafety
  import opened CardFacts
  import opened CardSafety
  import opened TradeSafety
  import opened Victory
  import opened Safety
  import opened Reachability
  import opened Progress
  import opened Rulebook
  import opened Stages

  // A command that passes the guards all sub-engines share.
  ghost predicate Timely(s: GameState, env: Envelope) {
    && Inv(s) && env.expectedStateVersion == s.stateVersion && env.actor in s.players && s.winner.None?
    && ValidRandomState(s.random) && (forall p :: p in s.playerOrder ==> p in s.players) && |s.playerOrder| == 4
  }

  // Phases and pending decisions belong together.
  ghost predicate Coherent(s: GameState) {
    && s.turn.phase != GameOver
    && (InSetup(s) ==> s.pending.None?)
    && (s.turn.phase == DiscardRequired <==> s.pending.Some? && s.pending.value.DiscardResources?)
    && (s.turn.phase == RobberMoveRequired <==> s.pending.Some? && s.pending.value.MoveRobber?)
    && (s.turn.phase == RobberTargetRequired <==> s.pending.Some? && s.pending.value.ChooseRobberTarget?)
    && (s.turn.phase == FreeRoadPlacement <==> s.pending.Some? && s.pending.value.PlaceFreeRoads?)
    && (s.pending.Some? && (s.pending.value.ChooseInvention? || s.pending.value.ChooseMonopoly?) ==> IsEffectPhase(s.turn.phase))
    && (s.pending.Some? && s.pending.value.RespondToTrade? ==> s.turn.phase == Action)
    && (s.pending.Some? ==>
          match s.pending.value
          case DiscardResources(_, _, _) => true
          case RespondToTrade(_, _, _) => true
          case _ => s.pending.value.actor == s.turn.current)
  }

  lemma PendingFits(s: GameState)
    requires Inv(s) && s.winner.None?
    ensures Coherent(s)
  {
    hide BoardInv, ResourceInv, CardInv, AwardInv, PointInv, SetupInv, TurnInv, SetupPhaseInv, OverInv, PlayedReference, FilterOrder,
      EligibleTargets, HasLegalFreeRoad, KnownEdges, TradeCoherent, PendingNamesKnown, CauseInv, ValidRoll;
    OpenCore(s);
  }

  // Setup.

  lemma {:induction false} GrantIsYield(contents: map<TileId, TileContent>, tiles: seq<TileId>, g: Grant)
    requires forall tile :: tile in tiles ==> tile in contents
    requires g.bank.Covers(Uniform(|tiles|))
    ensures GrantFrom(contents, tiles, g).Some?
    ensures GrantFrom(contents, tiles, g).value.hand == g.hand.Plus(Yield(contents, tiles))
    ensures GrantFrom(contents, tiles, g).value.bank == g.bank.Minus(Yield(contents, tiles))
    decreases |tiles|
  {
    if tiles != [] {
      var first := tiles[0];
      assert first in tiles;
      GrantUnfold(contents, tiles, g);
      GrantIsYield(contents, tiles[1..], GrantOne(contents, first, g));
    }
  }

  lemma SettlementPieces(s: GameState)
    requires Inv(s) && InSetup(s)
    ensures |BuildingsOf(s.board, s.turn.current, Settlement)| < SETTLEMENT_LIMIT && |RoadsOf(s.board, s.turn.current)| < ROAD_LIMIT
  {
    hide ResourceInv, CardInv, AwardInv, PointInv, BuildingsOf, RoadsOf, TouchesOwnBuilding, AllAnchored, Spaced, WithinLimits,
      ValidContents, ValidTopology, KnownOccupancy;
    OpenCore(s);
    var k := ExpectedSetupIndex(s.turn.setup.value);
    assert 0 <= k < 4 && s.turn.current == s.playerOrder[k];
  }

  lemma GrantedYield(s: GameState, v: VertexId)
    requires hide *; Inv(s) && s.turn.phase == SetupSettlement && s.turn.setup.Some? && s.turn.setup.value.round == 2
    requires v in s.board.topology.vertices && v !in s.board.buildings && s.turn.current in s.players
    ensures var grant := GrantStartingResources(s.(board := Settled(s.board, s.turn.current, v)), s.turn.current, v);
            && grant.Some?
            && grant.value.hand == s.players[s.turn.current].resources.Plus(StartingCards(s, v))
            && grant.value.bank == s.bank.resources.Minus(StartingCards(s, v))
  {
    hide Spaced, AllAnchored, WithinLimits, KnownOccupancy, CardInv, ResourceInv, SetupPieces, GrantFrom, ValidTopology, Yield,
      AwardInv, PointInv;
    OpenCore(s);
    var tiles := s.board.topology.vertices[v].tileIds;
    assert ValidVertex(s.board.topology, v) by {
      VertexIsValid(s.board.topology, v);
    }
    GrantIsYield(s.board.tileContents, tiles, Grant(s.players[s.turn.current].resources, s.bank.resources, NOTHING, NOTHING));
  }

  lemma PlacedIs(s: GameState, v: VertexId)
    requires s.turn.setup.Some? && s.turn.current in s.players
    ensures var actor, result := s.turn.current, PlaceSettlement(s, s.turn.current, v);
            result.Accepted? ==>
              if s.turn.setup.value.round == 2 then
                var grant := GrantStartingResources(s.(board := Settled(s.board, actor, v)), actor, v);
                grant.Some? && result.state == AfterSettlement(s, v, WithHand(s.players, actor, grant.value.hand), grant.value.bank)
              else result.state == AfterSettlement(s, v, s.players, s.bank.resources)
  {
    hide SetupAsserts, ValidateInitialSettlement, GrantStartingResources;
  }

  lemma SettledFollowsRule(s: GameState, v: VertexId, players: map<PlayerId, PlayerState>, bank: Bag)
    requires hide *; s.turn.setup.Some? && s.turn.current in s.players && s.winner.None? && ValidRandomState(s.random)
    requires forall p :: p in s.playerOrder ==> p in s.players
    requires HandsOf(players) == HandsOf(s.players)[s.turn.current := s.players[s.turn.current].resources.Plus(StartingCards(s, v))]
    requires HoldingsOf(players) == HoldingsOf(s.players) && bank == s.bank.resources.Minus(StartingCards(s, v))
    ensures Follows(s, s.turn.current, PlaceInitialSettlement(v), AfterSettlement(s, v, players, bank))
  {
    hide StartingCards, Bag.Plus, Bag.Minus, RevealPoints;
  }

  lemma SettlementRules(s: GameState, v: VertexId)
    requires hide *; Inv(s) && s.turn.phase == SetupSettlement && s.turn.current in s.players && s.winner.None?
    requires ValidRandomState(s.random) && forall p :: p in s.playerOrder ==> p in s.players
    ensures var result := PlaceSettlement(s, s.turn.current, v);
            && (result.Accepted? <==> IsOpenSite(s.board, v))
            && (result.Accepted? ==> Follows(s, s.turn.current, PlaceInitialSettlement(v), result.state))
  {
    hide Inv, SetupAsserts, HasOccupiedNeighbour, BuildingsOf, GrantStartingResources, StartingCards, Follows, AfterSettlement,
      HandsOf, HoldingsOf, WithHand, Bag.Plus, Bag.Minus, ResourceInv, CoreInv, SupplyFloor;
    var actor := s.turn.current;
    PlaceSettlementIsSafe(s, v);
    SettlementPieces(s);
    SetupShape(s);
    if IsOpenSite(s.board, v) {
      PlacedIs(s, v);
      if s.turn.setup.value.round == 2 {
        GrantedYield(s, v);
        var grant := GrantStartingResources(s.(board := Settled(s.board, actor, v)), actor, v).value;
        HandUpdate(s.players, actor, grant.hand);
        SettledFollowsRule(s, v, WithHand(s.players, actor, grant.hand), grant.bank);
      } else {
        NoYet(s, v);
        SettledFollowsRule(s, v, s.players, s.bank.resources);
      }
    }
  }

  lemma NoYet(s: GameState, v: VertexId)
    requires s.turn.setup.Some? && s.turn.setup.value.round != 2 && s.turn.current in s.players
    ensures StartingCards(s, v) == NOTHING
    ensures HandsOf(s.players)[s.turn.current := s.players[s.turn.current].resources.Plus(NOTHING)] == HandsOf(s.players)
    ensures s.bank.resources.Minus(NOTHING) == s.bank.resources
  {
  }

  // Every edge of the pending settlement is still free.
  lemma PendingEdgesAreFree(s: GameState, e: EdgeId)
    requires hide *; Inv(s) && s.turn.phase == SetupRoad && e in s.board.topology.edges
    requires s.turn.setup.Some? && s.turn.setup.value.pendingVertex.Some?
    requires var site, d := s.turn.setup.value.pendingVertex.value, s.board.topology.edges[e]; d.a == site || d.b == site
    ensures e !in s.board.roads
  {
    hide ResourceInv, CardInv, AwardInv, PointInv, BuildingsOf, RoadsOf, SetupPieces, AllAnchored, Spaced, WithinLimits, KnownOccupancy;
    OpenCore(s);
    assert ValidEdge(s.board.topology, e);
  }

  lemma NothingRolledYet(s: GameState)
    requires Inv(s) && InSetup(s)
    ensures s.turn.lastRoll.None? && !s.turn.cardPlayed
    ensures |s.playerOrder| == 4 && NextSetupTurn(s).Some? ==>
              NextSetupTurn(s).value.lastRoll.None? && !NextSetupTurn(s).value.cardPlayed
  {
    hide BoardInv, ResourceInv, CardInv, AwardInv, PointInv, SetupInv, TurnInv;
    OpenCore(s);
  }

  lemma SetupRoadRules(s: GameState, actor: PlayerId, e: EdgeId)
    requires hide *; Inv(s) && s.turn.phase == SetupRoad && actor == s.turn.current && actor in s.players && s.winner.None?
    requires ValidRandomState(s.random) && (forall p :: p in s.playerOrder ==> p in s.players) && |s.playerOrder| == 4
    ensures var result := PlaceRoad(s, actor, e);
            && (result.Accepted? <==> Allowed(s, actor, PlaceInitialRoad(e)))
            && (result.Accepted? ==> Follows(s, actor, PlaceInitialRoad(e), result.state))
  {
    hide Inv, SetupAsserts, RoadsOf, NextSetupTurn;
    PlaceRoadIsSafe(s, e);
    SettlementPieces(s);
    NothingRolledYet(s);
    if Allowed(s, actor, PlaceInitialRoad(e)) {
      PendingEdgesAreFree(s, e);
    }
  }

  lemma SetupRules(s: GameState, env: Envelope)
    requires hide *; Timely(s, env) && (env.command.PlaceInitialSettlement? || env.command.PlaceInitialRoad?)
    ensures var result := ExecuteSetup(s, env);
            && (result.Accepted? <==> Allowed(s, env.actor, env.command))
            && (result.Accepted? ==> Follows(s, env.actor, env.command, result.state))
  {
    hide Inv, SetupAsserts, PlaceSettlement, PlaceRoad, Follows, IsOpenSite, CoreInv;
    InvImpliesSetup(s);
    PendingFits(s);
    if env.actor == s.turn.current {
      if s.turn.phase == SetupSettlement && env.command.PlaceInitialSettlement? {
        SettlementRules(s, env.command.vertexId);
      } else if s.turn.phase == SetupRoad && env.command.PlaceInitialRoad? {
        SetupRoadRules(s, env.actor, env.command.edgeId);
      }
    }
  }

  // Turns.

  lemma SevenFollows(s: GameState, roll: DiceRoll, random: RandomState)
    requires hide *; s.turn.current in s.players && s.winner.None? && (forall p :: p in s.playerOrder ==> p in s.players)
    requires ValidRandomState(s.random) && (roll, random) == RollTwoDice(s.random) && roll.total == 7
    ensures Follows(s, s.turn.current, RollDice, AfterSeven(s, roll, random))
  {
    hide RollTwoDice, DiscardRequirements, ValidRandomState, RevealPoints, Harvested;
  }

  lemma ProductionFollows(s: GameState, roll: DiceRoll, random: RandomState)
    requires hide *; s.turn.current in s.players && s.winner.None? && (forall p :: p in s.playerOrder ==> p in s.players)
    requires ValidRandomState(s.random) && (roll, random) == RollTwoDice(s.random) && roll.total != 7
    requires Distinct(s.playerOrder) && HoldingsOf(ProducedPlayers(s, roll.total)) == HoldingsOf(s.players)
    requires ValidTopology(s.board.topology) && OwnersKnown(s)
    ensures Follows(s, s.turn.current, RollDice, AfterProduction(s, roll, random))
  {
    hide RollTwoDice, ValidRandomState, RevealPoints, ProducedPlayers, ProducedBank, HoldingsOf, Harvested, ValidTopology, OwnersKnown;
    HarvestIs(s, roll.total);
  }

  lemma ProducedHoldings(s: GameState, total: int)
    ensures HoldingsOf(ProducedPlayers(s, total)) == HoldingsOf(s.players)
  {
    hide ShareBag, ProducingTiles;
  }

  lemma BoardIsKnown(s: GameState)
    requires Inv(s)
    ensures ValidTopology(s.board.topology) && OwnersKnown(s)
  {
    hide ResourceInv, CardInv, AwardInv, PointInv, PhaseInv, SetupInv, TurnInv, ValidTopology, ValidContents, WithinLimits, Spaced, AllAnchored;
    OpenCore(s);
  }

  lemma RollRules(s: GameState)
    requires hide *; Inv(s) && s.turn.phase == RollRequired && s.winner.None? && s.pending.None? && s.turn.current in s.players
    requires ValidRandomState(s.random) && forall p :: p in s.playerOrder ==> p in s.players
    ensures ExecuteRoll(s).Accepted? && Follows(s, s.turn.current, RollDice, ExecuteRoll(s).state)
  {
    hide Inv, ScoringAsserts, RollTwoDice, ProductionInputs, ValidRandomState, Follows, AfterSeven, AfterProduction;
    RollIsSafe(s);
    var (roll, random) := RollTwoDice(s.random);
    if roll.total == 7 {
      SevenFollows(s, roll, random);
    } else {
      OrderIsDistinct(s);
      BoardIsKnown(s);
      ProducedHoldings(s, roll.total);
      ProductionFollows(s, roll, random);
    }
  }

  lemma EndTurnRules(s: GameState)
    requires hide *; Inv(s) && s.turn.phase == Action && s.winner.None? && s.pending.None? && s.turn.current in s.players
    requires ValidRandomState(s.random) && forall p :: p in s.playerOrder ==> p in s.players
    ensures ExecuteEndTurn(s).Accepted? && Follows(s, s.turn.current, EndTurn, ExecuteEndTurn(s).state)
  {
    hide Inv, ScoringAsserts, ResolveVictory, Settles, Follows;
    EndTurnIsSafe(s);
    var index := IndexOf(s.playerOrder, s.turn.current);
    var next := s.playerOrder[(index + 1) % |s.playerOrder|];
    ResolveSettles(AfterTurn(s, next));
    TurnFollows(s, next);
    SettledFollows(s, s.turn.current, EndTurn, AfterTurn(s, next), ExecuteEndTurn(s).state);
  }

  lemma TurnFollows(s: GameState, next: PlayerId)
    requires s.turn.current in s.players && ValidRandomState(s.random) && (forall p :: p in s.playerOrder ==> p in s.players)
    requires s.winner.None?
    ensures Follows(s, s.turn.current, EndTurn, AfterTurn(s, next))
  {
  }

  lemma TurnRules(s: GameState, env: Envelope)
    requires hide *; Timely(s, env) && (env.command.RollDice? || env.command.EndTurn?)
    ensures var result := ExecuteNormalTurn(s, env);
            && (result.Accepted? <==> Allowed(s, env.actor, env.command))
            && (result.Accepted? ==> Follows(s, env.actor, env.command, result.state))
  {
    hide Inv, ScoringAsserts, ExecuteRoll, ExecuteEndTurn, Follows, CoreInv, CardAsserts, TradingAsserts, FourPlayers, KnownEdges;
    InvAsserts(s);
    PendingFits(s);
    if OnTurn(s, env.actor) {
      if env.command.RollDice? && s.turn.phase == RollRequired {
        RollRules(s);
      } else if env.command.EndTurn? && s.turn.phase == Action {
        EndTurnRules(s);
      }
    }
  }

  // The robber.

  lemma DiscardFollows(s: GameState, actor: PlayerId, selection: Bag)
    requires hide *; actor in s.players && s.winner.None? && ValidRandomState(s.random) && (forall p :: p in s.playerOrder ==> p in s.players)
    requires s.pending.Some? && s.pending.value.DiscardResources?
    ensures Follows(s, actor, Discard(selection), AfterDiscard(s, actor, selection))
  {
    hide FilterOrder, RevealPoints, Bag.Plus, Bag.Minus, ValidRandomState, WithHand, HandsOf, HoldingsOf;
    HandUpdate(s.players, actor, s.players[actor].resources.Minus(selection));
    HandIs(s, actor);
  }

  lemma HandIs(s: GameState, p: PlayerId)
    requires p in s.players
    ensures p in HandsOf(s.players) && HandsOf(s.players)[p] == s.players[p].resources
  {
  }

  lemma OwedIsHalf(s: GameState, p: PlayerId)
    requires Inv(s) && s.turn.phase == DiscardRequired && OwesCards(s, p) && p in s.players
    ensures s.pending.value.required[p] == s.players[p].resources.Total() / 2
  {
    hide Inv, FilterOrder;
    DiscardShape(s);
  }

  lemma DiscardRules(s: GameState, actor: PlayerId, selection: Bag)
    requires hide *; Inv(s) && s.turn.phase == DiscardRequired && s.winner.None? && actor in s.players
    requires ValidRandomState(s.random) && forall p :: p in s.playerOrder ==> p in s.players
    requires s.pending.Some? && s.pending.value.DiscardResources?
    ensures var result := ExecuteDiscard(s, actor, selection);
            && (result.Accepted? <==> OwesCards(s, actor) && IsHalf(selection, s.players[actor].resources))
            && (result.Accepted? ==> Follows(s, actor, Discard(selection), result.state))
  {
    hide Inv, CardAsserts, AfterDiscard, Follows, ValidRandomState, CoreInv;
    DiscardIsSafe(s, actor, selection);
    DiscardFollows(s, actor, selection);
    if OwesCards(s, actor) {
      OwedIsHalf(s, actor);
    }
  }

  lemma MoveFollows(s: GameState, tile: TileId, targets: seq<PlayerId>)
    requires hide *; s.turn.current in s.players && s.winner.None? && ValidRandomState(s.random)
    requires forall p :: p in s.playerOrder ==> p in s.players
    requires s.pending.Some? && s.pending.value.MoveRobber?
    ensures Follows(s, s.turn.current, Move(tile), AfterMove(s, tile, targets))
  {
    hide RevealPoints, ValidRandomState, HandsOf, HoldingsOf;
  }

  lemma MoveRules(s: GameState, actor: PlayerId, tile: TileId)
    requires hide *; Inv(s) && s.turn.phase == RobberMoveRequired && s.winner.None? && actor in s.players
    requires ValidRandomState(s.random) && forall p :: p in s.playerOrder ==> p in s.players
    requires s.pending.Some? && s.pending.value.MoveRobber? && s.pending.value.actor == s.turn.current
    ensures var result := ExecuteMove(s, actor, tile);
            && (result.Accepted? <==> actor == s.turn.current && tile in s.board.topology.tiles && tile != s.board.robberTileId)
            && (result.Accepted? ==> Follows(s, actor, Move(tile), result.state))
  {
    hide Inv, CardAsserts, AfterMove, Follows, ValidRandomState, CoreInv, EligibleTargets, ResolveVictory, Settles;
    MoveIsSafe(s, actor, tile);
    if actor == s.turn.current && tile in s.board.topology.tiles && tile != s.board.robberTileId {
      var targets := EligibleTargets(s.board, s.players, s.playerOrder, tile, actor);
      var moved := AfterMove(s, tile, targets);
      MoveFollows(s, tile, targets);
      ResolveSettles(moved);
      NotWonBy(s, tile, targets);
      if ResolveVictory(moved).Accepted? {
        SettledFollows(s, actor, Move(tile), moved, ResolveVictory(moved).state);
      }
    }
  }

  lemma NotWonBy(s: GameState, tile: TileId, targets: seq<PlayerId>)
    requires s.pending.Some? && s.pending.value.MoveRobber?
    ensures AfterMove(s, tile, targets).winner == s.winner
  {
  }

  lemma StealFollows(s: GameState, target: PlayerId, r: Resource, random: RandomState)
    requires hide *; s.turn.current in s.players && s.winner.None? && ValidRandomState(s.random) && target in s.players
    requires forall p :: p in s.playerOrder ==> p in s.players
    requires s.pending.Some? && s.pending.value.ChooseRobberTarget? && target != s.turn.current
    requires IsDrawn(s.players[target].resources, s.random, r)
    requires DrawLeaves(s.players[target].resources, s.random, random)
    ensures Follows(s, s.turn.current, Steal(target), AfterSteal(s, s.turn.current, target, r, random))
  {
    hide RevealPoints, ValidRandomState, IsDrawn, DrawLeaves, HoldingsOf;
    var n := AfterSteal(s, s.turn.current, target, r, random);
    StolenHands(s, target, r, random);
    assert Passed(TableOf(s), target, s.turn.current, Cards(1, r)) == TableOf(n);
  }

  lemma StolenHands(s: GameState, target: PlayerId, r: Resource, random: RandomState)
    requires s.turn.current in s.players && target in s.players && target != s.turn.current
    requires s.pending.Some? && s.pending.value.ChooseRobberTarget?
    ensures var n := AfterSteal(s, s.turn.current, target, r, random);
            && HandsOf(n.players) == Passed(TableOf(s), target, s.turn.current, Cards(1, r)).hands
            && HoldingsOf(n.players) == HoldingsOf(s.players)
  {
  }

  lemma TargetIs(s: GameState, target: PlayerId)
    requires hide *; Inv(s) && s.turn.phase == RobberTargetRequired && forall p :: p in s.playerOrder <==> p in s.players
    requires s.pending.Some? && s.pending.value.ChooseRobberTarget?
    ensures target != s.turn.current && target in s.pending.value.eligible <==>
              && target != s.turn.current && target in s.players && s.players[target].resources.Total() > 0
              && s.board.robberTileId in s.board.topology.tiles && TileTouches(s.board, s.board.robberTileId, target)
  {
    hide Inv, EligibleTargets, TileTouches;
    TargetShape(s);
    EligibleTargetFacts(s.board, s.players, s.playerOrder, s.board.robberTileId, s.turn.current);
  }

  lemma StealRules(s: GameState, actor: PlayerId, target: PlayerId)
    requires hide *; Inv(s) && s.turn.phase == RobberTargetRequired && s.winner.None? && actor in s.players
    requires ValidRandomState(s.random) && forall p :: p in s.playerOrder <==> p in s.players
    requires s.pending.Some? && s.pending.value.ChooseRobberTarget? && s.pending.value.actor == s.turn.current
    ensures var result := ExecuteSteal(s, actor, target);
            && (result.Accepted? <==> Allowed(s, actor, Steal(target)))
            && (result.Accepted? ==> Follows(s, actor, Steal(target), result.state))
  {
    hide Inv, CardAsserts, AfterSteal, Follows, ValidRandomState, CoreInv, ResolveVictory, Settles, TileTouches, DrawRandomResource;
    StealIsSafe(s, actor, target);
    TargetIs(s, target);
    if Allowed(s, actor, Steal(target)) {
      NeverRefused(s, target);
      var (r, random) := DrawRandomResource(s.players[target].resources, s.random);
      var stolen := AfterSteal(s, actor, target, r, random);
      StealFollows(s, target, r, random);
      ResolveSettles(stolen);
      StealDecidesNothing(s, target, r, random);
      if ResolveVictory(stolen).Accepted? {
        SettledFollows(s, actor, Steal(target), stolen, ResolveVictory(stolen).state);
      }
    }
  }

  lemma StealDecidesNothing(s: GameState, target: PlayerId, r: Resource, random: RandomState)
    requires s.turn.current in s.players && target in s.players && s.pending.Some? && s.pending.value.ChooseRobberTarget?
    ensures AfterSteal(s, s.turn.current, target, r, random).winner == s.winner
  {
  }

  lemma NeverRefused(s: GameState, target: PlayerId)
    requires hide *; s.pending.Some? && s.pending.value.ChooseRobberTarget? && ValidRandomState(s.random)
    requires s.pending.value.actor == s.turn.current && s.turn.current in s.players && target in s.players
    requires target != s.turn.current && target in s.pending.value.eligible
    ensures !ExecuteSteal(s, s.turn.current, target).Rejected?
  {
    hide CardAsserts, AfterSteal, ResolveVictory, DrawRandomResource;
    forall n {
      ResolveSettles(n);
    }
  }

  lemma DiscardWaits(s: GameState, env: Envelope)
    requires hide *; Timely(s, env) && env.command.Discard?
    ensures var result := ExecuteRobber(s, env);
            && (result.Accepted? <==> Allowed(s, env.actor, env.command))
            && (result.Accepted? ==> Follows(s, env.actor, env.command, result.state))
  {
    hide Inv, CardAsserts, ScoringAsserts, TradingAsserts, ExecuteDiscard, ExecuteMove, ExecuteSteal, Follows, CoreInv, FourPlayers, KnownEdges,
      IsHalf, TileTouches, ValidRandomState;
    InvAsserts(s);
    PendingFits(s);
    if s.turn.phase == DiscardRequired {
      DiscardRules(s, env.actor, env.command.resources);
    }
  }

  lemma MoveWaits(s: GameState, env: Envelope)
    requires hide *; Timely(s, env) && env.command.Move?
    ensures var result := ExecuteRobber(s, env);
            && (result.Accepted? <==> Allowed(s, env.actor, env.command))
            && (result.Accepted? ==> Follows(s, env.actor, env.command, result.state))
  {
    hide Inv, CardAsserts, ScoringAsserts, TradingAsserts, ExecuteDiscard, ExecuteMove, ExecuteSteal, Follows, CoreInv, FourPlayers, KnownEdges,
      IsHalf, TileTouches, ValidRandomState;
    InvAsserts(s);
    PendingFits(s);
    if s.turn.phase == RobberMoveRequired {
      MoveRules(s, env.actor, env.command.tileId);
    }
  }

  lemma StealWaits(s: GameState, env: Envelope)
    requires hide *; Timely(s, env) && env.command.Steal? && forall p :: p in s.playerOrder <==> p in s.players
    ensures var result := ExecuteRobber(s, env);
            && (result.Accepted? <==> Allowed(s, env.actor, env.command))
            && (result.Accepted? ==> Follows(s, env.actor, env.command, result.state))
  {
    hide Inv, CardAsserts, ScoringAsserts, TradingAsserts, ExecuteDiscard, ExecuteMove, ExecuteSteal, Follows, CoreInv, FourPlayers, KnownEdges,
      IsHalf, TileTouches, ValidRandomState;
    InvAsserts(s);
    PendingFits(s);
    if s.turn.phase == RobberTargetRequired {
      StealRules(s, env.actor, env.command.target);
    }
  }

  // Building.

  lemma FreeRoadRule(b: BoardState, p: PlayerId, e: EdgeId)
    requires KnownEdges(b)
    ensures e in b.topology.edges ==> KnownEnds(b, e)
    ensures ValidateFreeRoad(b, p, e).None? <==> IsOpenEdge(b, p, e)
  {
    hide ConnectsAt, Continues, BlockedAt, RoadsOf;
    if KnownEnds(b, e) {
      ContinuesIs(b, p, b.topology.edges[e].a, e);
      ContinuesIs(b, p, b.topology.edges[e].b, e);
    }
  }

  lemma BuiltFollows(s: GameState, actor: PlayerId, command: Command)
    requires hide *; actor in s.players && s.winner.None? && ValidRandomState(s.random) && (forall p :: p in s.playerOrder ==> p in s.players)
    requires command.BuildRoad? || command.BuildSettlement? || command.UpgradeCity?
    requires s.turn.phase == Action
    ensures Follows(s, actor, command, AfterBuild(s, actor, command)) && AfterBuild(s, actor, command).winner.None?
  {
    hide RevealPoints, ValidRandomState, WithHand, HandsOf, HoldingsOf, Bag.Plus, Bag.Minus;
    HandIs(s, actor);
    HandUpdate(s.players, actor, s.players[actor].resources.Minus(ROAD_COST));
    HandUpdate(s.players, actor, s.players[actor].resources.Minus(SETTLEMENT_COST));
    HandUpdate(s.players, actor, s.players[actor].resources.Minus(CITY_COST));
  }

  ghost predicate BuildAllowed(s: GameState, actor: PlayerId, command: Command)
    requires actor in s.players
  {
    match command
    case BuildRoad(e) => IsOpenEdge(s.board, actor, e) && Holds(s, actor, ROAD_COST)
    case BuildSettlement(v) =>
      && IsOpenSite(s.board, v) && HasRoadTo(s.board, actor, v)
      && |BuildingsOf(s.board, actor, Settlement)| < SETTLEMENT_LIMIT && Holds(s, actor, SETTLEMENT_COST)
    case UpgradeCity(v) =>
      && v in s.board.buildings && s.board.buildings[v] == Building(Settlement, actor)
      && |BuildingsOf(s.board, actor, City)| < CITY_LIMIT && Holds(s, actor, CITY_COST)
    case _ => false
  }

  lemma BuildRules(s: GameState, env: Envelope)
    requires Timely(s, env) && s.turn.phase == Action && s.pending.None? && KnownEdges(s.board)
    requires env.command.BuildRoad? || env.command.BuildSettlement? || env.command.UpgradeCity?
    ensures var result := ExecuteBuild(s, env);
            && (result.Accepted? <==> BuildAllowed(s, env.actor, env.command))
            && (result.Accepted? ==> Follows(s, env.actor, env.command, result.state))
  {
    hide Inv, ScoringAsserts, ReconcileAndResolve, AfterBuild, Follows, Settles, ValidateFreeRoad, IsOpenEdge, HasOccupiedNeighbour,
      BuildingsOf, OwnsRoad, ValidRandomState, Bag.Covers;
    BuildIsSafe(s, env);
    BuiltFollows(s, env.actor, env.command);
    if env.command.BuildRoad? {
      FreeRoadRule(s.board, env.actor, env.command.roadEdgeId);
    } else if env.command.UpgradeCity? {
      CitiesStand(s, env.command.cityId);
    }
    var n := AfterBuild(s, env.actor, env.command);
    ReconcileSettles(n);
    if ReconcileAndResolve(n).Accepted? {
      SettledFollows(s, env.actor, env.command, n, ReconcileAndResolve(n).state);
    }
  }

  // A building stands on a vertex of the board.
  lemma CitiesStand(s: GameState, v: VertexId)
    requires Inv(s)
    ensures v in s.board.buildings ==> v in s.board.topology.vertices
  {
    hide ResourceInv, CardInv, AwardInv, PointInv, PhaseInv, SetupInv, TurnInv, ValidTopology, WithinLimits, Spaced, AllAnchored;
    OpenCore(s);
  }

  lemma PaidBuildingRules(s: GameState, env: Envelope)
    requires hide *; Timely(s, env) && s.turn.phase != FreeRoadPlacement
    requires env.command.BuildRoad? || env.command.BuildSettlement? || env.command.UpgradeCity?
    ensures var result := ExecutePaidBuilding(s, env);
            && (result.Accepted? <==> Allowed(s, env.actor, env.command))
            && (result.Accepted? ==> Follows(s, env.actor, env.command, result.state))
  {
    hide Inv, CoreInv, CardAsserts, ScoringAsserts, TradingAsserts, ExecuteBuild, Follows, FourPlayers, KnownEdges, IsOpenEdge,
      IsOpenSite, HasRoadTo, BuildingsOf, Holds, ValidRandomState;
    InvAsserts(s);
    PendingFits(s);
    if s.turn.phase == Action && OnTurn(s, env.actor) {
      BuildRules(s, env);
    }
  }

  // Cards.

  lemma BoughtFollows(s: GameState)
    requires hide *; s.turn.current in s.players && s.winner.None? && ValidRandomState(s.random) && s.bank.deck != []
    requires forall p :: p in s.playerOrder ==> p in s.players
    ensures var n := AfterBuy(s, s.turn.current); Follows(s, s.turn.current, BuyCard, n) && n.winner.None?
  {
    hide RevealPoints, ValidRandomState, HandsOf, HoldingsOf, WithHand, Bag.Plus, Bag.Minus;
    HandIs(s, s.turn.current);
    BuyMaps(s, s.turn.current);
  }

  lemma BuyRules(s: GameState)
    requires hide *; Inv(s) && s.turn.phase == Action && s.winner.None? && s.pending.None? && s.turn.current in s.players
    requires ValidRandomState(s.random) && forall p :: p in s.playerOrder ==> p in s.players
    ensures var result := ExecuteBuy(s, s.turn.current);
            && (result.Accepted? <==> s.bank.deck != [] && Holds(s, s.turn.current, CARD_COST))
            && (result.Accepted? ==> Follows(s, s.turn.current, BuyCard, result.state))
  {
    hide Inv, CardAsserts, ReconcileAndResolve, AfterBuy, Follows, Settles, ValidRandomState, Bag.Covers;
    BuyIsSafe(s, s.turn.current);
    if s.bank.deck != [] {
      var n := AfterBuy(s, s.turn.current);
      BoughtFollows(s);
      ReconcileSettles(n);
      if ReconcileAndResolve(n).Accepted? {
        SettledFollows(s, s.turn.current, BuyCard, n, ReconcileAndResolve(n).state);
      }
    }
  }

  lemma OwnCardsAreUnique(s: GameState)
    requires hide *; Inv(s) && s.turn.current in s.players
    ensures UniqueIds(s.players[s.turn.current].cards)
  {
    hide BoardInv, ResourceInv, CardInv, AwardInv, PointInv, PhaseInv, SetupInv, TurnInv, UniqueIds;
    OpenCore(s);
    HandsAreUnique(s.playerOrder, HoldingsOf(s.players), s.bank.deck, s.turn.turnNumber, s.turn.current);
  }

  // A card is found by its ID exactly when the player has it.
  lemma NamedIsFound(s: GameState, id: int)
    requires hide *; Inv(s) && s.turn.current in s.players
    ensures var cards := s.players[s.turn.current].cards;
            && (FindCard(cards, id).Some? ==> IsNamedCard(cards, FindCard(cards, id).value, id))
            && forall card :: IsNamedCard(cards, card, id) ==> FindCard(cards, id) == Some(card)
  {
    hide Inv, FindCard, UniqueIds;
    OwnCardsAreUnique(s);
    var cards := s.players[s.turn.current].cards;
    if FindCard(cards, id).Some? {
      var i := FindFacts(cards, id);
    }
    forall card | IsNamedCard(cards, card, id) ensures FindCard(cards, id) == Some(card) {
      var i :| 0 <= i < |cards| && cards[i] == card;
      FindUnique(cards, i);
    }
  }

  lemma RoadsRemain(b: BoardState, p: PlayerId)
    requires KnownEdges(b)
    ensures RemainingFreeRoadCount(b, p).Some? <==> exists e :: IsOpenEdge(b, p, e)
    ensures HasLegalFreeRoad(b, p) <==> exists e :: IsOpenEdge(b, p, e)
  {
    hide IsOpenEdge, RoadsOf, ValidateFreeRoad;
    forall e ensures e in b.topology.edges && ValidateFreeRoad(b, p, e).None? <==> IsOpenEdge(b, p, e) {
      FreeRoadRule(b, p, e);
      OpenEdgeFacts(b, p, e);
    }
    if HasLegalFreeRoad(b, p) {
      var e :| e in b.topology.edges && ValidateFreeRoad(b, p, e).None?;
      OpenEdgeFacts(b, p, e);
    }
  }

  lemma OpenEdgeFacts(b: BoardState, p: PlayerId, e: EdgeId)
    ensures IsOpenEdge(b, p, e) ==> e in b.topology.edges && |RoadsOf(b, p)| < ROAD_LIMIT
  {
    hide Continues, RoadsOf;
  }

  lemma PlayedFollows(s: GameState, card: OwnedCard, roads: int)
    requires hide *; s.turn.current in s.players && s.winner.None? && ValidRandomState(s.random) && card.kind != VictoryPoint
    requires forall p :: p in s.playerOrder ==> p in s.players
    requires FindCard(s.players[s.turn.current].cards, card.id) == Some(card)
    ensures var n := AfterPlay(s, s.turn.current, card, roads);
            Follows(s, s.turn.current, PlayCard(card.id), n) && n.winner.None?
  {
    hide RevealPoints, ValidRandomState, HandsOf, HoldingsOf, FindCard, ReplaceStatus, Spent;
    SpentIs(s.players[s.turn.current].cards, card.id);
    PlayMaps(s, s.turn.current, card, roads);
  }

  lemma PlayRules(s: GameState, id: int)
    requires Inv(s) && IsEffectPhase(s.turn.phase) && s.winner.None? && s.pending.None? && s.turn.current in s.players
    requires KnownEdges(s.board) && ValidRandomState(s.random) && forall p :: p in s.playerOrder ==> p in s.players
    ensures var result := ExecutePlay(s, s.turn.current, id);
            && (result.Accepted? <==> Allowed(s, s.turn.current, PlayCard(id)))
            && (result.Accepted? ==> Follows(s, s.turn.current, PlayCard(id), result.state))
  {
    hide Inv, CardAsserts, ReconcileAwards, AfterPlay, Follows, Settles, ValidRandomState, FindCard, IsOpenEdge, KnownEdges,
      RemainingFreeRoadCount, IsNamedCard, Bag.Total;
    PlayIsSafe(s, id);
    NamedIsFound(s, id);
    RoadsRemain(s.board, s.turn.current);
    var cards := s.players[s.turn.current].cards;
    var found := FindCard(cards, id);
    if found.Some? && IsPlayable(s, s.turn.current, found.value) && !s.turn.cardPlayed {
      NamedIs(cards, found.value, id);
      var roads := if found.value.kind == RoadBuilding then RemainingFreeRoadCount(s.board, s.turn.current).value else 0;
      var n := AfterPlay(s, s.turn.current, found.value, roads);
      PlayedFollows(s, found.value, roads);
      ReconcileSettles(n);
      if ReconcileAwards(n).Accepted? {
        AwardsSettle(n, ReconcileAwards(n).state);
        SettledFollows(s, s.turn.current, PlayCard(id), n, ReconcileAwards(n).state);
      }
    }
  }

  lemma NamedIs(cards: seq<OwnedCard>, card: OwnedCard, id: int)
    requires IsNamedCard(cards, card, id)
    ensures card.id == id
  {
  }

  lemma AwardsSettle(n: GameState, r: GameState)
    requires r == n.(awards := r.awards)
    ensures Settles(n, r)
  {
  }

  lemma PavedFollows(s: GameState, e: EdgeId)
    requires hide *; s.turn.current in s.players && s.winner.None? && ValidRandomState(s.random) && s.turn.phase == FreeRoadPlacement
    requires forall p :: p in s.playerOrder ==> p in s.players
    requires s.pending.Some? && s.pending.value.PlaceFreeRoads?
    ensures var n := AfterFreeRoad(s, s.turn.current, e);
            && Follows(s, s.turn.current, BuildRoad(e), n) && n.winner.None?
            && forall awards, turn: TurnState, pending {:trigger n.(awards := awards, turn := turn, pending := pending)} ::
                 turn == n.turn.(phase := turn.phase) ==>
                   Follows(s, s.turn.current, BuildRoad(e), n.(awards := awards, turn := turn, pending := pending))
  {
    hide RevealPoints, ValidRandomState, HandsOf, HoldingsOf;
  }

  lemma FreeRoadRules(s: GameState, e: EdgeId)
    requires hide *; Inv(s) && s.turn.phase == FreeRoadPlacement && s.pending.Some? && s.pending.value.PlaceFreeRoads?
    requires KnownEdges(s.board) && s.turn.current in s.players && s.winner.None?
    requires ValidRandomState(s.random) && forall p :: p in s.playerOrder ==> p in s.players
    ensures var result := ExecuteFreeRoad(s, s.turn.current, e);
            && (result.Accepted? <==> IsOpenEdge(s.board, s.turn.current, e))
            && (result.Accepted? ==> Follows(s, s.turn.current, BuildRoad(e), result.state))
  {
    hide Inv, CardAsserts, ReconcileAwards, ResolveVictory, AfterFreeRoad, Follows, Settles, ValidRandomState, ValidateFreeRoad,
      IsOpenEdge, KnownEdges, ActualPoints;
    FreeRoadIsSafe(s, e);
    FreeRoadRule(s.board, s.turn.current, e);
    var n := AfterFreeRoad(s, s.turn.current, e);
    PavedFollows(s, e);
    ReconcileSettles(n);
    if ReconcileAwards(n).Accepted? {
      var after := ReconcileAwards(n).state;
      var stable := after.(turn := after.turn.(phase := ResumePhase(after)), pending := None);
      assert stable == n.(awards := after.awards, turn := stable.turn, pending := None);
      assert after == n.(awards := after.awards, turn := n.turn, pending := n.pending);
      ResolveSettles(stable);
      if ResolveVictory(stable).Accepted? {
        SettledFollows(s, s.turn.current, BuildRoad(e), stable, ResolveVictory(stable).state);
      }
    }
  }

  lemma FinishRules(s: GameState)
    requires hide *; Inv(s) && s.turn.phase == FreeRoadPlacement && s.pending.Some? && s.pending.value.PlaceFreeRoads?
    requires KnownEdges(s.board) && s.turn.current in s.players && s.winner.None?
    requires ValidRandomState(s.random) && forall p :: p in s.playerOrder ==> p in s.players
    ensures var result := ExecuteFinish(s, s.turn.current);
            && (result.Accepted? <==> s.pending.value.remaining == 1 && forall e :: !IsOpenEdge(s.board, s.turn.current, e))
            && (result.Accepted? ==> Follows(s, s.turn.current, FinishFreeRoads, result.state))
  {
    hide Inv, CardAsserts, Follows, ValidRandomState, IsOpenEdge, KnownEdges, HasLegalFreeRoad, AfterFinish;
    FinishIsSafe(s, s.turn.current);
    RoadsRemain(s.board, s.turn.current);
    FinishedFollows(s);
  }

  lemma FinishedFollows(s: GameState)
    requires s.turn.current in s.players && s.winner.None? && ValidRandomState(s.random)
    requires forall p :: p in s.playerOrder ==> p in s.players
    ensures Follows(s, s.turn.current, FinishFreeRoads, AfterFinish(s))
  {
    hide RevealPoints, ValidRandomState, HandsOf, HoldingsOf;
  }

  lemma InventionFollows(s: GameState, selection: Bag)
    requires hide *; s.turn.current in s.players && s.winner.None? && ValidRandomState(s.random)
    requires forall p :: p in s.playerOrder ==> p in s.players
    ensures Follows(s, s.turn.current, TakeInvention(selection), AfterInvention(s, s.turn.current, selection))
  {
    hide RevealPoints, ValidRandomState, HandsOf, HoldingsOf, WithHand, Bag.Plus, Bag.Minus;
    HandIs(s, s.turn.current);
    HandUpdate(s.players, s.turn.current, s.players[s.turn.current].resources.Plus(selection));
  }

  lemma InventionRules(s: GameState, selection: Bag)
    requires hide *; Inv(s) && IsEffectPhase(s.turn.phase) && s.pending.Some? && s.pending.value.ChooseInvention? && s.winner.None?
    requires s.turn.current in s.players && s.pending.value.actor == s.turn.current
    requires ValidRandomState(s.random) && forall p :: p in s.playerOrder ==> p in s.players
    ensures var result := ExecuteInvention(s, s.turn.current, selection);
            && (result.Accepted? <==> selection.Complete() && selection.Total() == 2 && s.bank.resources.Covers(selection))
            && (result.Accepted? ==> Follows(s, s.turn.current, TakeInvention(selection), result.state))
  {
    hide Inv, CardAsserts, Follows, ValidRandomState, AfterInvention, Bag.Complete, Bag.Total, Bag.Covers;
    InventionIsSafe(s, s.turn.current, selection);
    InventionFollows(s, selection);
  }

  lemma {:induction false} MonopolyTotal(order: seq<PlayerId>, hands: map<PlayerId, Bag>, p: PlayerId, r: Resource)
    requires Distinct(order) && forall q :: q in order ==> q in hands
    ensures SumHands(order, hands).Get(r) == HeldByOthers(order, hands, p, r) + (if p in order then hands[p].Get(r) else 0)
  {
    if order != [] {
      var first := order[0];
      assert first in order;
      MonopolyTotal(order[1..], hands, p, r);
    }
  }

  lemma MonopolisedHands(s: GameState, r: Resource)
    requires s.turn.current in s.players && Distinct(s.playerOrder) && forall p :: p in s.playerOrder <==> p in s.players
    ensures var players := MonopolyPlayers(s, s.turn.current, r);
            && HandsOf(players) == Monopolised(s, TableOf(s), s.turn.current, r).hands && HoldingsOf(players) == HoldingsOf(s.players)
  {
    hide SumHands, HeldByOthers, Bag.Set;
    MonopolyTotal(s.playerOrder, HandsOf(s.players), s.turn.current, r);
  }

  lemma MonopolyFollows(s: GameState, r: Resource)
    requires hide *; s.turn.current in s.players && s.winner.None? && ValidRandomState(s.random)
    requires Distinct(s.playerOrder) && forall p :: p in s.playerOrder <==> p in s.players
    ensures Follows(s, s.turn.current, TakeMonopoly(r), AfterMonopoly(s, s.turn.current, r))
  {
    hide RevealPoints, ValidRandomState, HoldingsOf, MonopolyPlayers, SumHands, HeldByOthers, Bag.Set;
    MonopolisedHands(s, r);
  }

  lemma MonopolyRules(s: GameState, r: Resource)
    requires hide *; Inv(s) && IsEffectPhase(s.turn.phase) && s.pending.Some? && s.pending.value.ChooseMonopoly? && s.winner.None?
    requires s.turn.current in s.players && s.pending.value.actor == s.turn.current && Distinct(s.playerOrder)
    requires ValidRandomState(s.random) && forall p :: p in s.playerOrder <==> p in s.players
    ensures var result := ExecuteMonopoly(s, s.turn.current, r);
            result.Accepted? && Follows(s, s.turn.current, TakeMonopoly(r), result.state)
  {
    hide Inv, CardAsserts, Follows, ValidRandomState, AfterMonopoly;
    MonopolyIsSafe(s, s.turn.current, r);
    MonopolyFollows(s, r);
  }

  lemma EffectRules(s: GameState, env: Envelope)
    requires Timely(s, env) && KnownEdges(s.board) && Distinct(s.playerOrder) && forall p :: p in s.playerOrder <==> p in s.players
    requires (env.command.BuildRoad? && s.turn.phase == FreeRoadPlacement) || env.command.FinishFreeRoads?
             || env.command.TakeInvention? || env.command.TakeMonopoly?
    ensures var result := ExecutePendingEffect(s, env);
            && (result.Accepted? <==> Allowed(s, env.actor, env.command))
            && (result.Accepted? ==> Follows(s, env.actor, env.command, result.state))
  {
    hide Inv, ExecuteFreeRoad, ExecuteFinish, ExecuteInvention, ExecuteMonopoly, Follows, ValidRandomState, IsOpenEdge, KnownEdges,
      Holds, Bag.Complete, Bag.Total, Bag.Covers;
    PendingFits(s);
    if env.actor == s.turn.current && s.pending.Some? && EffectMatches(s.pending.value, env.command) {
      match env.command {
        case BuildRoad(e) => FreeRoadRules(s, e);
        case FinishFreeRoads => FinishRules(s);
        case TakeInvention(selection) => InventionRules(s, selection);
        case TakeMonopoly(r) => MonopolyRules(s, r);
      }
    }
  }

  lemma CardRules(s: GameState, env: Envelope)
    requires hide *; Timely(s, env) && Distinct(s.playerOrder) && forall p :: p in s.playerOrder <==> p in s.players
    requires (env.command.BuildRoad? && s.turn.phase == FreeRoadPlacement) || env.command.FinishFreeRoads?
             || env.command.TakeInvention? || env.command.TakeMonopoly? || env.command.BuyCard? || env.command.PlayCard?
    ensures var result := ExecuteCards(s, env);
            && (result.Accepted? <==> Allowed(s, env.actor, env.command))
            && (result.Accepted? ==> Follows(s, env.actor, env.command, result.state))
  {
    hide Inv, CoreInv, CardAsserts, ScoringAsserts, TradingAsserts, ExecutePendingEffect, ExecuteBuy, ExecutePlay, Follows, FourPlayers,
      KnownEdges, IsOpenEdge, Holds, IsPlayable, IsNamedCard, ValidRandomState, Bag.Complete, Bag.Total, Bag.Covers;
    InvAsserts(s);
    PendingFits(s);
    if env.command.BuyCard? {
      if s.turn.phase == Action && OnTurn(s, env.actor) {
        BuyRules(s);
      }
    } else if env.command.PlayCard? {
      if IsEffectPhase(s.turn.phase) && OnTurn(s, env.actor) {
        PlayRules(s, env.command.cardId);
      }
    } else {
      EffectRules(s, env);
    }
  }

  // Trading.

  // An offer, an answer or a new offer in its place moves nothing.
  lemma TalkFollows(s: GameState, actor: PlayerId, command: Command, pending: Option<Pending>)
    requires actor in s.players && s.winner.None? && ValidRandomState(s.random) && forall p :: p in s.playerOrder ==> p in s.players
    requires command.ProposeTrade? || command.RejectTrade? || command.CounterTrade?
    ensures Follows(s, actor, command, s.(stateVersion := s.stateVersion + 1, pending := pending))
  {
    hide RevealPoints, ValidRandomState, HandsOf, HoldingsOf;
  }

  lemma ProposalRules(s: GameState, offer: TradeOffer)
    requires hide *; Inv(s) && s.turn.phase == Action && s.pending.None? && s.winner.None? && s.turn.current in s.players
    requires ValidRandomState(s.random) && forall p :: p in s.playerOrder ==> p in s.players
    ensures var result := ExecuteProposal(s, s.turn.current, offer);
            && (result.Accepted? <==>
                  IsOwnOffer(s, s.turn.current, offer) && IsFairOffer(offer) && Holds(s, s.turn.current, offer.initiatorGives))
            && (result.Accepted? ==> Follows(s, s.turn.current, ProposeTrade(offer), result.state))
  {
    hide Inv, TradingAsserts, Follows, ValidRandomState, Overlaps, NonBlank, Bag.Covers;
    OffersAre(s, s.turn.current, offer);
    ProposalIsSafe(s, s.turn.current, offer);
    TalkFollows(s, s.turn.current, ProposeTrade(offer), Some(RespondToTrade(offer.counterparty, offer, 0)));
  }

  lemma CounterRules(s: GameState, actor: PlayerId, id: TradeId, offer: TradeOffer)
    requires hide *; Inv(s) && s.pending.Some? && s.pending.value.RespondToTrade? && s.winner.None? && actor in s.players
    requires actor == s.pending.value.responder
    requires ValidRandomState(s.random) && forall p :: p in s.playerOrder ==> p in s.players
    ensures var result := ExecuteCounter(s, actor, offer);
            && (result.Accepted? <==>
                  && s.pending.value.counterDepth == 0 && IsCounterTo(s.pending.value.offer, actor, offer)
                  && IsFairOffer(offer) && Holds(s, actor, offer.counterpartyGives))
            && (result.Accepted? ==> Follows(s, actor, CounterTrade(id, offer), result.state))
  {
    hide Inv, TradingAsserts, Follows, ValidRandomState, Overlaps, NonBlank, Bag.Covers;
    OfferWaits(s);
    OffersAre(s, actor, offer);
    CounterIsSafe(s, actor, offer);
    TalkFollows(s, actor, CounterTrade(id, offer), Some(RespondToTrade(offer.initiator, offer, 1)));
  }

  lemma ExchangedHands(s: GameState, offer: TradeOffer)
    requires offer.initiator in s.players && offer.counterparty in s.players && offer.initiator != offer.counterparty
    ensures var n := AfterTrade(s, offer);
            && HandsOf(n.players) == Passed(Passed(TableOf(s), offer.initiator, offer.counterparty, offer.initiatorGives),
                                            offer.counterparty, offer.initiator, offer.counterpartyGives).hands
            && HoldingsOf(n.players) == HoldingsOf(s.players)
  {
  }

  lemma AcceptRules(s: GameState, actor: PlayerId, id: TradeId)
    requires hide *; Inv(s) && s.pending.Some? && s.pending.value.RespondToTrade? && s.winner.None? && actor in s.players
    requires ValidRandomState(s.random) && forall p :: p in s.playerOrder ==> p in s.players
    ensures var result, offer := ExecuteAccept(s), s.pending.value.offer;
            && (result.Accepted? <==>
                  Holds(s, offer.initiator, offer.initiatorGives) && Holds(s, offer.counterparty, offer.counterpartyGives))
            && (result.Accepted? ==> Follows(s, actor, AcceptTrade(id), result.state))
  {
    hide Inv, TradingAsserts, ValidRandomState, Overlaps, Bag.Covers, AfterTrade, Follows;
    var offer := s.pending.value.offer;
    OfferFacts(s);
    AcceptanceIsSafe(s);
    TradeFollows(s, actor, id);
  }

  lemma TradeFollows(s: GameState, actor: PlayerId, id: TradeId)
    requires hide *; s.pending.Some? && s.pending.value.RespondToTrade? && s.winner.None? && actor in s.players
    requires ValidRandomState(s.random) && forall p :: p in s.playerOrder ==> p in s.players
    requires var offer := s.pending.value.offer;
             offer.initiator in s.players && offer.counterparty in s.players && offer.initiator != offer.counterparty
    ensures Follows(s, actor, AcceptTrade(id), AfterTrade(s, s.pending.value.offer))
  {
    hide RevealPoints, ValidRandomState, HoldingsOf, WithHand, Bag.Plus, Bag.Minus;
    ExchangedHands(s, s.pending.value.offer);
  }

  lemma ShippedBags(hand: Bag, bank: Bag, give: Resource, receive: Resource, ratio: int)
    requires give != receive
    ensures hand.Set(give, hand.Get(give) - ratio).Set(receive, hand.Get(receive) + 1)
         == hand.Minus(Cards(ratio, give)).Plus(Cards(1, receive))
    ensures bank.Set(give, bank.Get(give) + ratio).Set(receive, bank.Get(receive) - 1)
         == bank.Plus(Cards(ratio, give)).Minus(Cards(1, receive))
  {
  }

  lemma MaritimeFollows(s: GameState, give: Resource, receive: Resource)
    requires hide *; s.turn.current in s.players && s.winner.None? && ValidRandomState(s.random) && give != receive
    requires forall p :: p in s.playerOrder ==> p in s.players
    ensures Follows(s, s.turn.current, MaritimeTrade(give, receive),
                    AfterMaritime(s, s.turn.current, give, receive, Rate(s.board, s.turn.current, give)))
  {
    hide RevealPoints, ValidRandomState, HandsOf, HoldingsOf, WithHand, Rate, Cards, Bag.Get, Bag.Set, Bag.Plus, Bag.Minus;
    var ratio, hand := Rate(s.board, s.turn.current, give), s.players[s.turn.current].resources;
    ShippedBags(hand, s.bank.resources, give, receive, ratio);
    HandIs(s, s.turn.current);
    HandUpdate(s.players, s.turn.current, hand.Minus(Cards(ratio, give)).Plus(Cards(1, receive)));
  }

  lemma MaritimeRules(s: GameState, give: Resource, receive: Resource)
    requires hide *; Inv(s) && s.turn.phase == Action && s.pending.None? && s.winner.None? && s.turn.current in s.players
    requires ValidRandomState(s.random) && forall p :: p in s.playerOrder ==> p in s.players
    ensures var result := ExecuteMaritime(s, s.turn.current, give, receive);
            && (result.Accepted? <==>
                  && give != receive && s.players[s.turn.current].resources.Get(give) >= Rate(s.board, s.turn.current, give)
                  && s.bank.resources.Get(receive) >= 1)
            && (result.Accepted? ==> Follows(s, s.turn.current, MaritimeTrade(give, receive), result.state))
  {
    hide Inv, TradingAsserts, ValidRandomState, AfterMaritime, Follows, MaritimeRatio, Rate, Bag.Get, Bag.Complete;
    RateIs(s.board, s.turn.current, give);
    MaritimeIsSafe(s, s.turn.current, give, receive);
    if give != receive {
      MaritimeFollows(s, give, receive);
    }
  }

  lemma ResponseRules(s: GameState, env: Envelope)
    requires hide *; Timely(s, env) && (env.command.AcceptTrade? || env.command.RejectTrade? || env.command.CounterTrade?)
    ensures var result := ExecuteResponse(s, env);
            && (result.Accepted? <==> Allowed(s, env.actor, env.command))
            && (result.Accepted? ==> Follows(s, env.actor, env.command, result.state))
  {
    hide Inv, TradingAsserts, ExecuteCounter, ExecuteAccept, Follows, ValidRandomState, Holds, IsFairOffer, IsCounterTo, AfterReject;
    if s.pending.Some? && s.pending.value.RespondToTrade? && env.actor == s.pending.value.responder
       && NamedTrade(env.command) == Some(s.pending.value.offer.tradeId)
    {
      match env.command {
        case AcceptTrade(id) => AcceptRules(s, env.actor, id);
        case RejectTrade(id) =>
          RejectionIsSafe(s);
          TalkFollows(s, env.actor, env.command, None);
          RejectedIs(s);
        case CounterTrade(id, counter) => CounterRules(s, env.actor, id, counter);
      }
    }
  }

  lemma RejectedIs(s: GameState)
    ensures AfterReject(s) == s.(stateVersion := s.stateVersion + 1, pending := None)
  {
  }

  lemma TradeRules(s: GameState, env: Envelope)
    requires hide *; Timely(s, env)
    requires env.command.AcceptTrade? || env.command.RejectTrade? || env.command.CounterTrade?
             || env.command.ProposeTrade? || env.command.MaritimeTrade?
    ensures var result := ExecuteTrading(s, env);
            && (result.Accepted? <==> Allowed(s, env.actor, env.command))
            && (result.Accepted? ==> Follows(s, env.actor, env.command, result.state))
  {
    hide Inv, CoreInv, CardAsserts, ScoringAsserts, TradingAsserts, ExecuteResponse, ExecuteProposal, ExecuteMaritime, Follows, FourPlayers,
      KnownEdges, ValidRandomState, Holds, IsFairOffer, IsOwnOffer, IsCounterTo, Rate, Bag.Get;
    InvAsserts(s);
    if env.command.ProposeTrade? {
      if s.turn.phase == Action && OnTurn(s, env.actor) {
        ProposalRules(s, env.command.offer);
      }
    } else if env.command.MaritimeTrade? {
      if s.turn.phase == Action && OnTurn(s, env.actor) {
        MaritimeRules(s, env.command.give, env.command.receive);
      }
    } else {
      ResponseRules(s, env);
    }
    NotOver(s);
  }

  lemma NotOver(s: GameState)
    requires Inv(s) && s.winner.None?
    ensures s.turn.phase != GameOver
  {
    hide Inv;
    PendingFits(s);
  }

  // The whole engine.

  lemma TimelyRules(s: GameState, env: Envelope)
    requires hide *; Timely(s, env) && Distinct(s.playerOrder) && forall p :: p in s.playerOrder <==> p in s.players
    ensures var result := Execute(s, env);
            && (result.Accepted? <==> Allowed(s, env.actor, env.command))
            && (result.Accepted? ==> Follows(s, env.actor, env.command, result.state))
  {
    hide Inv, CoreInv, CardAsserts, ScoringAsserts, TradingAsserts, ExecuteSetup, ExecuteNormalTurn, ExecuteRobber, ExecutePaidBuilding,
      ExecuteCards, ExecuteTrading, Follows, FourPlayers, KnownEdges, ValidRandomState, Allowed;
    InvAsserts(s);
    PendingFits(s);
    match env.command
    case PlaceInitialSettlement(_) => SetupRules(s, env);
    case PlaceInitialRoad(_) => SetupRules(s, env);
    case RollDice => TurnRules(s, env);
    case EndTurn => TurnRules(s, env);
    case Discard(_) => DiscardWaits(s, env);
    case Move(_) => MoveWaits(s, env);
    case Steal(_) => StealWaits(s, env);
    case BuildSettlement(_) => BuildingWaits(s, env);
    case UpgradeCity(_) => BuildingWaits(s, env);
    case BuildRoad(_) =>
      if s.turn.phase == FreeRoadPlacement {
        CardRules(s, env);
      } else {
        PaidBuildingRules(s, env);
      }
    case BuyCard => CardRules(s, env);
    case PlayCard(_) => CardRules(s, env);
    case TakeInvention(_) => CardRules(s, env);
    case TakeMonopoly(_) => CardRules(s, env);
    case FinishFreeRoads => CardRules(s, env);
    case _ => TradeRules(s, env);
  }

  // Free roads come before any paid building.
  lemma BuildingWaits(s: GameState, env: Envelope)
    requires hide *; Timely(s, env) && (env.command.BuildSettlement? || env.command.UpgradeCity?)
    ensures var result := ExecutePaidBuilding(s, env);
            && (result.Accepted? <==> Allowed(s, env.actor, env.command))
            && (result.Accepted? ==> Follows(s, env.actor, env.command, result.state))
  {
    hide Inv, CoreInv, ScoringAsserts, TradingAsserts, CardAsserts, ExecuteBuild, Follows, KnownEdges, IsOpenSite, HasRoadTo, BuildingsOf,
      Holds, ValidRandomState;
    if s.turn.phase != FreeRoadPlacement {
      PaidBuildingRules(s, env);
    }
  }

  // The main theorem: from a new game on, a command is accepted exactly when it names the
  // current version and the rulebook allows it, and then it does what the rulebook says
  // and leads to the phase and the decision it names.
  lemma EngineFollowsTheRules(s: GameState, env: Envelope)
    requires Reachable(s)
    ensures ValidRandomState(s.random) && forall p :: p in s.playerOrder ==> p in s.players
    ensures var result := Execute(s, env);
            && (result.Accepted? <==> env.expectedStateVersion == s.stateVersion && Allowed(s, env.actor, env.command))
            && (result.Accepted? ==> Follows(s, env.actor, env.command, result.state) && Leads(s, env.actor, env.command, result.state))
  {
    hide Reachable, Inv, Execute, Follows, Leads, ValidRandomState, FourPlayers, TradingAsserts, CardAsserts, ScoringAsserts, SetupAsserts,
      KnownEdges, Allowed;
    ReachableInv(s);
    Basics(s);
    if env.expectedStateVersion == s.stateVersion && env.actor in s.players && s.winner.None? {
      FourFromInv(s);
      OrderIsDistinct(s);
      TimelyRules(s, env);
      PendingFits(s);
      ExecutionLeads(s, env);
    } else {
      Untimely(s, env);
    }
  }

  lemma OrderIsDistinct(s: GameState)
    requires Inv(s)
    ensures Distinct(s.playerOrder)
  {
    hide BoardInv, ResourceInv, CardInv, AwardInv, PointInv, PhaseInv, SetupInv, TurnInv;
    OpenCore(s);
  }

  lemma Untimely(s: GameState, env: Envelope)
    requires Inv(s) && !(env.expectedStateVersion == s.stateVersion && env.actor in s.players && s.winner.None?)
    ensures !Execute(s, env).Accepted?
    ensures env.expectedStateVersion == s.stateVersion ==> !Allowed(s, env.actor, env.command)
  {
    hide Inv, TradingAsserts, CardAsserts, ScoringAsserts, SetupAsserts, KnownEdges, PlaceSettlement, PlaceRoad, ExecuteRoll,
      ExecuteEndTurn, ExecuteDiscard, ExecuteMove, ExecuteSteal, ExecuteBuild, ExecutePendingEffect, ExecuteBuy, ExecutePlay,
      ExecuteResponse, ExecuteProposal, ExecuteMaritime;
  }
}
