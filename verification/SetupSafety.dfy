// Setup commands keep the invariant; granting starting resources never meets a shortage.

module SetupSafety {
  import opened Board
  import opened Bags
  import opened GameModel
  import opened LongestRoad
  import opened SeededRandom
  import opened Production
  import opened Rules
  import opened Assertions
  import opened Engine
  import opened Invariants
  import opened InvariantsImplyAssertions
  import opened Geometry
  import opened CardFacts

  function Uniform(n: int): Bag {
    Bag(n, n, n, n, n)
  }

  // Granting conserves cards and takes at most one card per tile of each kind.
  lemma {:induction false} GrantConserves(contents: map<TileId, TileContent>, tiles: seq<TileId>, g: Grant)
    requires forall tile :: tile in tiles ==> tile in contents
    requires g.bank.Complete()
    ensures GrantFrom(contents, tiles, g).Some?
    ensures var after := GrantFrom(contents, tiles, g).value;
            && after.hand.Plus(after.bank) == g.hand.Plus(g.bank)
            && after.bank.Complete() && after.hand.Covers(g.hand)
            && after.bank.Covers(g.bank.Minus(Uniform(|tiles|)))
    decreases |tiles|
  {
    if tiles != [] {
      var first := tiles[0];
      assert first in tiles;
      var next := GrantOne(contents, first, g);
      GrantOneFacts(contents, first, g);
      hide GrantOne;
      GrantConserves(contents, tiles[1..], next);
      assert GrantFrom(contents, tiles, g) == GrantFrom(contents, tiles[1..], next) by {
        GrantUnfold(contents, tiles, g);
      }
    }
  }

  // The accumulator after one tile.
  function GrantOne(contents: map<TileId, TileContent>, tile: TileId, g: Grant): Grant
    requires tile in contents
  {
    match TerrainResource(contents[tile].terrain)
    case None => g
    case Some(r) =>
      var asked := g.(demand := g.demand.Set(r, g.demand.Get(r) + 1));
      if g.bank.Get(r) > 0 then
        asked.(bank := g.bank.Set(r, g.bank.Get(r) - 1), hand := g.hand.Set(r, g.hand.Get(r) + 1),
               granted := g.granted.Set(r, g.granted.Get(r) + 1))
      else asked
  }

  lemma GrantOneFacts(contents: map<TileId, TileContent>, tile: TileId, g: Grant)
    requires tile in contents && g.bank.Complete()
    ensures var next := GrantOne(contents, tile, g);
            && next.hand.Plus(next.bank) == g.hand.Plus(g.bank)
            && next.bank.Complete() && next.hand.Covers(g.hand) && next.bank.Covers(g.bank.Minus(Uniform(1)))
  {
  }

  lemma GrantUnfold(contents: map<TileId, TileContent>, tiles: seq<TileId>, g: Grant)
    requires tiles != [] && tiles[0] in contents
    ensures GrantFrom(contents, tiles, g) == GrantFrom(contents, tiles[1..], GrantOne(contents, tiles[0], g))
  {
  }

  // With a card of each kind for every tile, everything asked for is granted.
  lemma {:induction false} GrantInFull(contents: map<TileId, TileContent>, tiles: seq<TileId>, g: Grant)
    requires forall tile :: tile in tiles ==> tile in contents
    requires g.bank.Covers(Uniform(|tiles|)) && g.granted == g.demand
    ensures GrantFrom(contents, tiles, g).Some?
    ensures GrantFrom(contents, tiles, g).value.granted == GrantFrom(contents, tiles, g).value.demand
    decreases |tiles|
  {
    if tiles != [] {
      var first := tiles[0];
      assert first in tiles;
      GrantInFull(contents, tiles[1..], GrantOne(contents, first, g));
    }
  }

  lemma {:induction false} NoLeaders(order: seq<PlayerId>, values: map<PlayerId, nat>, minimum: nat, maximum: nat)
    requires forall p :: p in order ==> p in values && values[p] < minimum
    ensures Leaders(order, values, minimum, maximum) == []
  {
    if order != [] {
      var first := order[0];
      assert first in order;
      NoLeaders(order[1..], values, minimum, maximum);
    }
  }

  lemma NobodyQualifies(order: seq<PlayerId>, values: map<PlayerId, nat>, minimum: nat)
    requires forall p :: p in order ==> p in values && values[p] < minimum
    ensures DeriveHolder(order, values, None, minimum) == None
  {
    NoLeaders(order, values, minimum, MaxValue(order, values));
  }

  // With short roads and no Knights, unheld awards stay unheld.
  lemma UnheldAwards(s: GameState)
    requires FourPlayers(s) && ValidTopology(s.board.topology)
    requires s.awards == Awards(None, None)
    requires forall p :: p in s.playerOrder ==> |RoadsOf(s.board, p)| < LONGEST_ROAD_MINIMUM && s.players[p].playedKnights == 0
    ensures AwardInv(s)
  {
    hide LongestRoadLength, ValidTopology, DeriveHolder, RoadsOf;
    forall p | p in s.playerOrder
      ensures RoadLengths(s)[p] < LONGEST_ROAD_MINIMUM && KnightCounts(s)[p] == 0
    {
      AtMostRoadsOwned(s.board, p);
    }
    NobodyQualifies(s.playerOrder, RoadLengths(s), LONGEST_ROAD_MINIMUM);
    NobodyQualifies(s.playerOrder, KnightCounts(s), LARGEST_ARMY_MINIMUM);
  }

  lemma SetupPlayerFacts(s: GameState)
    requires CoreInv(s) && InSetup(s)
    ensures forall p :: p in s.playerOrder ==>
              s.players[p].cards == [] && s.players[p].playedKnights == 0 && |RoadsOf(s.board, p)| <= 2
  {
    hide BoardInv, ResourceInv, RoadsOf, BuildingsOf, AllCardIds, TouchesOwnBuilding;
    OpenCore(s);
    forall p | p in s.playerOrder
      ensures s.players[p].cards == [] && s.players[p].playedKnights == 0 && |RoadsOf(s.board, p)| <= 2
    {
      assert ValidHolding(HoldingsOf(s.players)[p], s.turn.turnNumber);
      var k :| 0 <= k < 4 && s.playerOrder[k] == p;
    }
  }

  // Nobody holds an award during setup.
  lemma SetupAwardsUnheld(s: GameState)
    requires CoreInv(s) && AwardInv(s) && InSetup(s)
    ensures s.awards == Awards(None, None)
  {
    hide CoreInv, LongestRoadLength, AwardInv, ValidTopology;
    FourFromCore(s);
    SetupPlayerFacts(s);
    AwardsAreHeldByLeaders(s);
    CoreImpliesSetup(s);
    NoneLeads(s);
  }

  lemma NoneLeads(s: GameState)
    requires FourPlayers(s) && ValidTopology(s.board.topology)
    requires forall p :: p in s.playerOrder ==> s.players[p].playedKnights == 0 && |RoadsOf(s.board, p)| <= 2
    requires s.awards.longestRoad.Some? ==>
               && s.awards.longestRoad.value in s.players
               && LongestRoadLength(s.board, s.awards.longestRoad.value) >= LONGEST_ROAD_MINIMUM
    requires s.awards.largestArmy.Some? ==>
               && s.awards.largestArmy.value in s.players
               && s.players[s.awards.largestArmy.value].playedKnights >= LARGEST_ARMY_MINIMUM
    ensures s.awards == Awards(None, None)
  {
    hide LongestRoadLength, ValidTopology, RoadsOf;
    forall p | p in s.players
      ensures s.awards.longestRoad != Some(p) && s.awards.largestArmy != Some(p)
    {
      assert p in s.playerOrder && s.players[p].playedKnights == 0;
      AtMostRoadsOwned(s.board, p);
    }
  }

  // Placing a settlement.

  lemma FreshWhenPlaced(b: BoardState, p: PlayerId, v: VertexId)
    requires ValidTopology(b.topology) && v in b.topology.vertices && v !in b.buildings && !HasOccupiedNeighbour(b, v)
    requires forall e :: e in b.roads ==> TouchesOwnBuilding(b, b.roads[e], e)
    ensures FreshSettlement(Settled(b, p, v), v)
  {
    assert ValidVertex(b.topology, v);
    forall e | e in b.topology.vertices[v].edgeIds ensures e !in b.roads {
      assert ValidEdge(b.topology, e);
      var w := OtherEnd(b.topology.edges[e], v);
      assert w in b.topology.vertices[v].adjacentVertexIds;
      assert w !in b.buildings;
    }
  }

  lemma SettledSetupPieces(order: seq<PlayerId>, b: BoardState, setup: SetupState, p: PlayerId, v: VertexId)
    requires |order| == 4 && Distinct(order)
    requires 0 <= ExpectedSetupIndex(setup) <= 3 && p == order[ExpectedSetupIndex(setup)]
    requires SetupPieces(order, b, setup, 0) && v !in b.buildings
    ensures SetupPieces(order, Settled(b, p, v), setup.(pendingVertex := Some(v)), 1)
  {
    hide BuildingsOf, RoadsOf;
    var b' := Settled(b, p, v);
    SettledTotal(b, p, v);
    forall k | 0 <= k < 4
      ensures |BuildingsOf(b', order[k], Settlement)|
           == FinishedSetupTurns(setup, k) + (if k == ExpectedSetupIndex(setup) then 1 else 0)
      ensures |BuildingsOf(b', order[k], City)| == 0 && |RoadsOf(b', order[k])| == FinishedSetupTurns(setup, k)
    {
      SettledPieces(b, p, v, order[k]);
    }
    forall e | e in b'.roads ensures TouchesOwnBuilding(b', b'.roads[e], e) {
      assert TouchesOwnBuilding(b, b.roads[e], e);
    }
  }

  // The state after a settlement: in round two its tiles pay out.
  lemma GrantedHands(s: GameState, v: VertexId)
    requires CoreInv(s) && s.turn.phase == SetupSettlement && s.turn.setup.Some? && s.turn.setup.value.round == 2
    requires v in s.board.topology.vertices && v !in s.board.buildings
    ensures var grant := GrantStartingResources(s.(board := Settled(s.board, s.turn.current, v)), s.turn.current, v);
            && grant.Some?
            && grant.value.granted == grant.value.demand
            && ResourceInv(s.playerOrder, HandsOf(WithHand(s.players, s.turn.current, grant.value.hand)), grant.value.bank)
            && HoldingsOf(WithHand(s.players, s.turn.current, grant.value.hand)) == HoldingsOf(s.players)
            && grant.value.bank.Covers(SupplyFloor(s.turn.setup.value, 1))
  {
    hide BoardInv, ResourceInv, CardInv, PhaseInv, TurnInv, SetupPieces, FreshSettlement, GrantFrom, WithHand, HandsOf, HoldingsOf;
    OpenCore(s);
    var tiles := s.board.topology.vertices[v].tileIds;
    var p := s.turn.current;
    var start := Grant(s.players[p].resources, s.bank.resources, NOTHING, NOTHING);
    SiteTiles(s.board, s.players.Keys, v);
    SetupIndex(s);
    BankIsComplete(s.playerOrder, HandsOf(s.players), s.bank.resources);
    GrantConserves(s.board.tileContents, tiles, start);
    GrantInFull(s.board.tileContents, tiles, start);
    GrantKeepsSupply(s, p, GrantFrom(s.board.tileContents, tiles, start).value);
  }

  lemma SetupIndex(s: GameState)
    requires FourPlayers(s) && PhaseInv(s) && InSetup(s)
    ensures s.turn.setup.Some? && 0 <= s.turn.setup.value.placementIndex <= 3
  {
    hide Distinct;
  }

  // A site has at most three tiles, all of them on the board.
  lemma SiteTiles(b: BoardState, players: set<PlayerId>, v: VertexId)
    requires BoardInv(b, players) && v in b.topology.vertices
    ensures var tiles := b.topology.vertices[v].tileIds;
            |tiles| <= 3 && forall tile :: tile in tiles ==> tile in b.tileContents
  {
    hide Spaced, AllAnchored, WithinLimits, KnownOccupancy;
    assert ValidVertex(b.topology, v);
  }

  lemma BankIsComplete(order: seq<PlayerId>, hands: map<PlayerId, Bag>, bank: Bag)
    requires ResourceInv(order, hands, bank)
    ensures bank.Complete()
  {
    hide SumHands;
  }

  // What moves from the bank to one hand leaves the supply whole.
  lemma GrantKeepsSupply(s: GameState, p: PlayerId, g: Grant)
    requires FourPlayers(s) && p in s.players && ResourceInv(s.playerOrder, HandsOf(s.players), s.bank.resources)
    requires g.hand.Plus(g.bank) == s.players[p].resources.Plus(s.bank.resources)
    requires g.bank.Complete() && g.hand.Covers(s.players[p].resources)
    ensures ResourceInv(s.playerOrder, HandsOf(WithHand(s.players, p, g.hand)), g.bank)
    ensures HoldingsOf(WithHand(s.players, p, g.hand)) == HoldingsOf(s.players)
  {
    hide SumHands, WithHand, HoldingsOf;
    HandUpdate(s.players, p, g.hand);
    SumHandsUpdate(s.playerOrder, HandsOf(s.players), p, g.hand);
  }

  lemma VertexIsValid(t: Topology, v: VertexId)
    requires ValidTopology(t) && v in t.vertices
    ensures ValidVertex(t, v)
  {
  }

  // What placing a settlement leads to.
  function AfterSettlement(s: GameState, v: VertexId, players: map<PlayerId, PlayerState>, bank: Bag): GameState
    requires s.turn.setup.Some?
  {
    s.(stateVersion := s.stateVersion + 1, board := Settled(s.board, s.turn.current, v),
       turn := s.turn.(phase := SetupRoad, setup := Some(s.turn.setup.value.(pendingVertex := Some(v)))),
       players := players, bank := s.bank.(resources := bank))
  }

  lemma SettlementAwards(s: GameState, v: VertexId, players: map<PlayerId, PlayerState>, bank: Bag)
    requires hide *; Inv(s) && s.turn.phase == SetupSettlement && s.turn.setup.Some? && v !in s.board.buildings
    requires players.Keys == s.players.Keys && HoldingsOf(players) == HoldingsOf(s.players)
    ensures AwardInv(AfterSettlement(s, v, players, bank))
    ensures forall q :: q in players ==> players[q].cards == []
  {
    OpenCore(s);
    SetupAwardsUnheld(s);
    SetupPlayerFacts(s);
    var n := AfterSettlement(s, v, players, bank);
    hide BoardInv, ResourceInv, CardInv, SetupInv, PhaseInv, AwardInv, LongestRoadLength, RoadsOf, BuildingsOf;
    forall q | q in s.playerOrder
      ensures |RoadsOf(n.board, q)| < LONGEST_ROAD_MINIMUM && players[q].playedKnights == 0 && players[q].cards == []
    {
      SettledPieces(s.board, s.turn.current, v, q);
      assert HoldingsOf(players)[q] == HoldingsOf(s.players)[q];
    }
    assert ValidTopology(s.board.topology) by {
      CoreImpliesSetup(s);
    }
    UnheldAwards(n);
  }

  lemma SettlementPhase(s: GameState, v: VertexId, players: map<PlayerId, PlayerState>, bank: Bag)
    requires Inv(s) && s.turn.phase == SetupSettlement && v !in s.board.buildings
    ensures s.turn.setup.Some? && 0 <= ExpectedSetupIndex(s.turn.setup.value) <= 3
    ensures s.turn.current == s.playerOrder[ExpectedSetupIndex(s.turn.setup.value)]
    ensures var n := AfterSettlement(s, v, players, bank);
            && PhaseInv(n) && TurnInv(n.stateVersion, n.playerOrder, n.turn)
            && s.stateVersion == 2 * SetupTurnsDone(s.turn.setup.value)
            && SetupPieces(s.playerOrder, s.board, s.turn.setup.value, 0)
            && forall e :: e in s.board.roads ==> TouchesOwnBuilding(s.board, s.board.roads[e], e)
  {
    hide BoardInv, ResourceInv, CardInv, AwardInv, PointInv;
    OpenCore(s);
  }

  lemma SettlementKeepsInv(s: GameState, v: VertexId, players: map<PlayerId, PlayerState>, bank: Bag)
    requires hide *; Inv(s) && s.turn.phase == SetupSettlement
    requires s.turn.setup.Some?
    requires ValidateInitialSettlement(s, s.turn.current, v).None?
    requires players.Keys == s.players.Keys && HoldingsOf(players) == HoldingsOf(s.players)
    requires ResourceInv(s.playerOrder, HandsOf(players), bank)
    requires bank.Covers(SupplyFloor(s.turn.setup.value, 1))
    ensures Inv(AfterSettlement(s, v, players, bank))
  {
    hide Spaced, AllAnchored, WithinLimits, KnownOccupancy, ValidContents, ValidTopology, ResourceInv, CardInv,
      HasOccupiedNeighbour, AwardInv, LongestRoadLength, PhaseInv, SetupPieces, FreshSettlement, RoadsOf, BuildingsOf;
    OpenCore(s);
    var p := s.turn.current;
    SettlementPhase(s, v, players, bank);
    SettlementKeepsBoard(s.board, s.players.Keys, p, v);
    SettledSetupPieces(s.playerOrder, s.board, s.turn.setup.value, p, v);
    FreshWhenPlaced(s.board, p, v);
    SettlementAwards(s, v, players, bank);
    assert CoreInv(AfterSettlement(s, v, players, bank));
  }

  lemma SetupShape(s: GameState)
    requires hide *; Inv(s) && InSetup(s)
    ensures s.turn.setup.Some? && (s.turn.setup.value.round == 1 || s.turn.setup.value.round == 2)
    ensures ResourceInv(s.playerOrder, HandsOf(s.players), s.bank.resources)
    ensures s.bank.resources.Covers(SupplyFloor(s.turn.setup.value, Half(s.turn.phase)))
    ensures s.turn.current in s.players && CoreInv(s)
  {
    hide BoardInv, ResourceInv, CardInv, AwardInv, PointInv, SetupPieces, SupplyFloor;
    OpenCore(s);
  }

  // The whole settlement command.
  lemma PlaceSettlementIsSafe(s: GameState, v: VertexId)
    requires hide *; Inv(s) && s.turn.phase == SetupSettlement
    ensures var result := PlaceSettlement(s, s.turn.current, v);
            !result.Threw? && (result.Accepted? ==> Inv(result.state) && result.state.stateVersion == s.stateVersion + 1)
  {
    hide Inv, CoreInv, SetupAsserts, ResourceInv, HasOccupiedNeighbour, GrantFrom;
    var p := s.turn.current;
    SetupShape(s);
    if ValidateInitialSettlement(s, p, v).None? {
      if s.turn.setup.value.round == 2 {
        GrantedHands(s, v);
        var grant := GrantStartingResources(s.(board := Settled(s.board, p, v)), p, v).value;
        SettlementKeepsInv(s, v, WithHand(s.players, p, grant.hand), grant.bank);
        InvImpliesSetup(AfterSettlement(s, v, WithHand(s.players, p, grant.hand), grant.bank));
      } else {
        SettlementKeepsInv(s, v, s.players, s.bank.resources);
        InvImpliesSetup(AfterSettlement(s, v, s.players, s.bank.resources));
      }
    }
  }

  lemma InvImpliesSetup(s: GameState)
    requires Inv(s)
    ensures SetupAsserts(s) && CoreInv(s)
  {
    OpenCore(s);
    CoreImpliesSetup(s);
  }

  // Placing a road.

  // The setup record after this turn; round two index three is the last turn.
  function NextSetup(setup: SetupState): SetupState {
    if setup.round == 1 && setup.placementIndex == 3 then SetupState(2, 0, None)
    else SetupState(setup.round, setup.placementIndex + 1, None)
  }

  predicate IsLastSetupTurn(setup: SetupState) {
    setup.round == 2 && setup.placementIndex == 3
  }

  lemma NextSetupCounts(setup: SetupState, k: int)
    requires (setup.round == 1 || setup.round == 2) && 0 <= setup.placementIndex <= 3 && !IsLastSetupTurn(setup)
    requires 0 <= k < 4
    ensures SetupTurnsDone(NextSetup(setup)) == SetupTurnsDone(setup) + 1
    ensures FinishedSetupTurns(NextSetup(setup), k)
         == FinishedSetupTurns(setup, k) + (if k == ExpectedSetupIndex(setup) then 1 else 0)
  {
  }

  lemma PavedSetupPieces(order: seq<PlayerId>, b: BoardState, setup: SetupState, p: PlayerId, e: EdgeId)
    requires |order| == 4 && Distinct(order)
    requires (setup.round == 1 || setup.round == 2) && 0 <= setup.placementIndex <= 3
    requires p == order[ExpectedSetupIndex(setup)]
    requires SetupPieces(order, b, setup, 1) && e !in b.roads && TouchesOwnBuilding(b, p, e)
    ensures forall k {:trigger order[k]} :: 0 <= k < 4 ==>
              && |BuildingsOf(Paved(b, p, e), order[k], Settlement)|
                 == FinishedSetupTurns(setup, k) + (if k == ExpectedSetupIndex(setup) then 1 else 0)
              && |BuildingsOf(Paved(b, p, e), order[k], City)| == 0
              && |RoadsOf(Paved(b, p, e), order[k])|
                 == FinishedSetupTurns(setup, k) + (if k == ExpectedSetupIndex(setup) then 1 else 0)
    ensures forall f :: f in Paved(b, p, e).roads ==> TouchesOwnBuilding(Paved(b, p, e), Paved(b, p, e).roads[f], f)
  {
    hide BuildingsOf, RoadsOf;
    var b' := Paved(b, p, e);
    forall k | 0 <= k < 4
      ensures |BuildingsOf(b', order[k], Settlement)|
           == FinishedSetupTurns(setup, k) + (if k == ExpectedSetupIndex(setup) then 1 else 0)
      ensures |BuildingsOf(b', order[k], City)| == 0
      ensures |RoadsOf(b', order[k])| == FinishedSetupTurns(setup, k) + (if k == ExpectedSetupIndex(setup) then 1 else 0)
    {
      PavedPieces(b, p, e, order[k]);
    }
    forall f | f in b'.roads ensures TouchesOwnBuilding(b', b'.roads[f], f) {
      assert f != e ==> TouchesOwnBuilding(b, b.roads[f], f);
    }
  }

  function AfterSetupRoad(s: GameState, e: EdgeId, turn: TurnState): GameState {
    s.(stateVersion := s.stateVersion + 1, board := Paved(s.board, s.turn.current, e), turn := turn)
  }

  lemma SetupRoadFacts(s: GameState, e: EdgeId)
    requires Inv(s) && s.turn.phase == SetupRoad
    ensures s.turn.setup.Some? && s.turn.setup.value.pendingVertex.Some?
    ensures (s.turn.setup.value.round == 1 || s.turn.setup.value.round == 2) && 0 <= s.turn.setup.value.placementIndex <= 3
    ensures s.turn.current == s.playerOrder[ExpectedSetupIndex(s.turn.setup.value)]
    ensures s.stateVersion == 2 * SetupTurnsDone(s.turn.setup.value) + 1
    ensures SetupPieces(s.playerOrder, s.board, s.turn.setup.value, 1)
    ensures s.winner.None? && s.pending.None? && s.turn.turnNumber == 0 && s.turn.lastRoll.None? && !s.turn.cardPlayed
    ensures s.bank.resources.Covers(SupplyFloor(s.turn.setup.value, 1))
    ensures ValidateInitialRoad(s, s.turn.current, e, s.turn.setup.value.pendingVertex.value).None? ==>
              TouchesOwnBuilding(s.board, s.turn.current, e)
  {
    hide BoardInv, ResourceInv, CardInv, AwardInv, PointInv, SetupPieces, SupplyFloor;
    OpenCore(s);
  }

  lemma SetupRoadBoard(s: GameState, e: EdgeId)
    requires BoardInv(s.board, s.players.Keys) && s.turn.current in s.players
    requires e in s.board.topology.edges && e !in s.board.roads
    requires |RoadsOf(s.board, s.turn.current)| < ROAD_LIMIT && TouchesOwnBuilding(s.board, s.turn.current, e)
    ensures BoardInv(Paved(s.board, s.turn.current, e), s.players.Keys)
  {
    hide BoardInv;
    var b' := Paved(s.board, s.turn.current, e);
    assert Anchored(b', s.turn.current, e, 0);
    RoadKeepsBoard(s.board, s.players.Keys, s.turn.current, e);
  }

  lemma SetupRoadAwards(s: GameState, e: EdgeId, turn: TurnState)
    requires hide *; Inv(s) && s.turn.phase == SetupRoad && e !in s.board.roads
    ensures AwardInv(AfterSetupRoad(s, e, turn).(turn := s.turn))
    ensures s.awards == Awards(None, None) && forall p :: p in s.players ==> s.players[p].cards == []
  {
    OpenCore(s);
    SetupAwardsUnheld(s);
    SetupPlayerFacts(s);
    var n := AfterSetupRoad(s, e, s.turn);
    hide BoardInv, ResourceInv, CardInv, SetupInv, PhaseInv, AwardInv, LongestRoadLength, RoadsOf, BuildingsOf;
    forall q | q in s.playerOrder ensures |RoadsOf(n.board, q)| < LONGEST_ROAD_MINIMUM {
      PavedPieces(s.board, s.turn.current, e, q);
    }
    assert ValidTopology(s.board.topology) by {
      CoreImpliesSetup(s);
    }
    UnheldAwards(n);
  }

  lemma AwardsIgnoreTurn(s: GameState, turn: TurnState)
    requires AwardInv(s)
    ensures AwardInv(s.(turn := turn))
  {
    hide LongestRoadLength, DeriveHolder;
    OpenAwards(s);
    OpenAwards(s.(turn := turn));
    assert RoadLengths(s.(turn := turn)) == RoadLengths(s);
    assert KnightCounts(s.(turn := turn)) == KnightCounts(s);
  }

  // Every setup road but the last hands the turn on in snake order.
  lemma MiddleRoadKeepsInv(s: GameState, e: EdgeId)
    requires Inv(s) && s.turn.phase == SetupRoad && s.turn.setup.Some? && s.turn.setup.value.pendingVertex.Some?
    requires ValidateInitialRoad(s, s.turn.current, e, s.turn.setup.value.pendingVertex.value).None?
    requires !IsLastSetupTurn(s.turn.setup.value)
    ensures NextSetupTurn(s).Some? && Inv(AfterSetupRoad(s, e, NextSetupTurn(s).value))
  {
    hide Spaced, AllAnchored, WithinLimits, KnownOccupancy, ValidContents, ValidTopology, ResourceInv, CardInv, AwardInv,
      LongestRoadLength, FreshSettlement, RoadsOf, BuildingsOf, PhaseInv, SetupInv, BoardInv, TouchesOwnBuilding;
    OpenCore(s);
    var setup := s.turn.setup.value;
    SetupRoadFacts(s, e);
    SetupRoadBoard(s, e);
    PavedSetupPieces(s.playerOrder, s.board, setup, s.turn.current, e);
    var turn := NextSetupTurn(s).value;
    SetupRoadAwards(s, e, turn);
    var n := AfterSetupRoad(s, e, turn);
    AwardsIgnoreTurn(n.(turn := s.turn), turn);
    assert turn == s.turn.(current := s.playerOrder[ExpectedSetupIndex(NextSetup(setup))], phase := SetupSettlement,
                           setup := Some(NextSetup(setup)));
    forall k | 0 <= k < 4
      ensures FinishedSetupTurns(NextSetup(setup), k)
           == FinishedSetupTurns(setup, k) + (if k == ExpectedSetupIndex(setup) then 1 else 0)
    {
      NextSetupCounts(setup, k);
    }
    NextSetupCounts(setup, 0);
    assert SetupPieces(n.playerOrder, n.board, NextSetup(setup), 0);
    CardInvSameTurn(s, turn);
    MiddleRoadPhase(s, n);
  }

  lemma CardInvSameTurn(s: GameState, turn: TurnState)
    requires Inv(s) && turn.turnNumber == s.turn.turnNumber
    ensures CardInv(s.playerOrder, HoldingsOf(s.players), s.bank.deck, turn.turnNumber)
  {
    OpenCore(s);
  }

  lemma MiddleRoadPhase(s: GameState, n: GameState)
    requires FourPlayers(s) && s.turn.phase == SetupRoad && s.turn.setup.Some?
    requires (s.turn.setup.value.round == 1 || s.turn.setup.value.round == 2) && 0 <= s.turn.setup.value.placementIndex <= 3
    requires !IsLastSetupTurn(s.turn.setup.value)
    requires var next := NextSetup(s.turn.setup.value);
             n == s.(stateVersion := s.stateVersion + 1, board := n.board,
                     turn := s.turn.(current := s.playerOrder[ExpectedSetupIndex(next)], phase := SetupSettlement, setup := Some(next)))
    requires s.stateVersion == 2 * SetupTurnsDone(s.turn.setup.value) + 1
    requires SetupPieces(n.playerOrder, n.board, NextSetup(s.turn.setup.value), 0)
    requires BoardInv(n.board, n.players.Keys) && AwardInv(n)
    requires s.bank.resources.Covers(SupplyFloor(s.turn.setup.value, 1))
    requires forall p :: p in s.players ==> s.players[p].cards == []
    requires Inv(s)
    ensures Inv(n)
  {
    hide BoardInv, ResourceInv, CardInv, AwardInv, SetupPieces, FreshSettlement, HandsOf, HoldingsOf;
    OpenCore(s);
    var current := n.turn.current;
    assert current in s.playerOrder;
    assert PhaseInv(n);
    assert CoreInv(n);
  }

  // The last setup road starts turn one.
  lemma LastRoadKeepsInv(s: GameState, e: EdgeId)
    requires Inv(s) && s.turn.phase == SetupRoad && s.turn.setup.Some? && s.turn.setup.value.pendingVertex.Some?
    requires ValidateInitialRoad(s, s.turn.current, e, s.turn.setup.value.pendingVertex.value).None?
    requires IsLastSetupTurn(s.turn.setup.value)
    ensures NextSetupTurn(s).Some?
    ensures var n := AfterSetupRoad(s, e, NextSetupTurn(s).value);
            && Inv(n) && !InSetup(n) && n.stateVersion == 16
            && (forall p :: p in n.players ==>
                  |BuildingsOf(n.board, p, Settlement)| == 2 && |BuildingsOf(n.board, p, City)| == 0 && |RoadsOf(n.board, p)| == 2)
  {
    hide Spaced, AllAnchored, WithinLimits, KnownOccupancy, ValidContents, ValidTopology, ResourceInv, AwardInv,
      LongestRoadLength, FreshSettlement, RoadsOf, BuildingsOf, PhaseInv, SetupInv, BoardInv, TouchesOwnBuilding, CardInv;
    OpenCore(s);
    var setup := s.turn.setup.value;
    SetupRoadFacts(s, e);
    SetupRoadBoard(s, e);
    PavedSetupPieces(s.playerOrder, s.board, setup, s.turn.current, e);
    var turn := NextSetupTurn(s).value;
    SetupRoadAwards(s, e, turn);
    var n := AfterSetupRoad(s, e, turn);
    AwardsIgnoreTurn(n.(turn := s.turn), turn);
    forall p | p in n.players
      ensures |BuildingsOf(n.board, p, Settlement)| == 2 && |BuildingsOf(n.board, p, City)| == 0 && |RoadsOf(n.board, p)| == 2
    {
      var k :| 0 <= k < 4 && s.playerOrder[k] == p;
    }
    CardInvStart(s);
    LastRoadPhase(s, n);
  }

  lemma CardInvStart(s: GameState)
    requires Inv(s) && s.turn.turnNumber == 0
    ensures CardInv(s.playerOrder, HoldingsOf(s.players), s.bank.deck, 1)
  {
    hide BoardInv, ResourceInv, CardInv, PhaseInv, SetupInv, TurnInv, AwardInv, PointInv, HoldingsOf, FourPlayers;
    OpenCore(s);
    CardInvLater(s.playerOrder, HoldingsOf(s.players), s.bank.deck, 0, 1);
  }

  lemma LastRoadPhase(s: GameState, n: GameState)
    requires Inv(s) && FourPlayers(s) && s.winner.None? && s.pending.None?
    requires n == s.(stateVersion := 16, board := n.board, turn := TurnState(1, s.playerOrder[0], RollRequired, None, None, false))
    requires BoardInv(n.board, n.players.Keys) && AwardInv(n) && s.awards == Awards(None, None)
    requires CardInv(s.playerOrder, HoldingsOf(s.players), s.bank.deck, 1)
    requires forall p :: p in s.players ==> s.players[p].cards == []
    requires forall p :: p in n.players ==> |BuildingsOf(n.board, p, Settlement)| == 2 && |BuildingsOf(n.board, p, City)| == 0
    ensures Inv(n)
  {
    hide BoardInv, ResourceInv, CardInv, AwardInv, SetupPieces, FreshSettlement, HandsOf, HoldingsOf, BuildingsOf, RoadsOf;
    OpenCore(s);
    var current := n.turn.current;
    assert current in s.playerOrder;
    assert PhaseInv(n);
    assert CoreInv(n);
  }

  // The whole road command.
  lemma PlaceRoadIsSafe(s: GameState, e: EdgeId)
    requires hide *; Inv(s) && s.turn.phase == SetupRoad && |s.playerOrder| == 4
    ensures var result := PlaceRoad(s, s.turn.current, e);
            !result.Threw? && (result.Accepted? ==> Inv(result.state) && result.state.stateVersion == s.stateVersion + 1)
  {
    hide Inv, CoreInv, SetupAsserts, NextSetupTurn, ValidateInitialRoad;
    SetupRoadFacts(s, e);
    if ValidateInitialRoad(s, s.turn.current, e, s.turn.setup.value.pendingVertex.value).None? {
      if IsLastSetupTurn(s.turn.setup.value) {
        LastRoadKeepsInv(s, e);
      } else {
        MiddleRoadKeepsInv(s, e);
      }
      InvImpliesSetup(AfterSetupRoad(s, e, NextSetupTurn(s).value));
    }
  }

  // Both setup commands, with their guards.
  lemma SetupIsSafe(s: GameState, env: Envelope)
    requires Inv(s)
    ensures var result := ExecuteSetup(s, env);
            !result.Threw? && (result.Accepted? ==> Inv(result.state) && result.state.stateVersion == s.stateVersion + 1)
  {
    hide Inv, CoreInv, SetupAsserts, PlaceSettlement, PlaceRoad;
    InvImpliesSetup(s);
    assert |s.playerOrder| == 4 by {
      FourFromCore(s);
    }
    if s.turn.phase == SetupSettlement && env.command.PlaceInitialSettlement? {
      PlaceSettlementIsSafe(s, env.command.vertexId);
    } else if s.turn.phase == SetupRoad && env.command.PlaceInitialRoad? {
      PlaceRoadIsSafe(s, env.command.edgeId);
    }
  }
}
