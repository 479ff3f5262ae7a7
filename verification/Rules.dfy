// The placement, payment, trade and card rules.

module Production {
  import opened Board
  import opened Bags
  import opened GameModel

  // The sum of the players' hands.
  function SumHands(order: seq<PlayerId>, hands: map<PlayerId, Bag>): Bag
    requires forall p :: p in order ==> p in hands
  {
    if order == [] then NOTHING
    else
      var first := order[0];
      assert first in order;
      hands[first].Plus(SumHands(order[1..], hands))
  }

  lemma {:induction false} SumHandsElsewhere(order: seq<PlayerId>, hands: map<PlayerId, Bag>, p: PlayerId, hand: Bag)
    requires forall q :: q in order ==> q in hands
    requires p !in order
    ensures SumHands(order, hands[p := hand]) == SumHands(order, hands)
  {
    if order != [] {
      SumHandsElsewhere(order[1..], hands, p, hand);
    }
  }

  lemma {:induction false} SumHandsUpdate(order: seq<PlayerId>, hands: map<PlayerId, Bag>, p: PlayerId, hand: Bag)
    requires forall q :: q in order ==> q in hands
    requires Distinct(order) && p in order
    ensures SumHands(order, hands[p := hand]) == SumHands(order, hands).Minus(hands[p]).Plus(hand)
  {
    if order[0] == p {
      SumHandsElsewhere(order[1..], hands, p, hand);
    } else {
      SumHandsUpdate(order[1..], hands, p, hand);
    }
  }

  lemma SumHandsUnfold(order: seq<PlayerId>, hands: map<PlayerId, Bag>)
    requires forall p :: p in order ==> p in hands
    ensures order == [] ==> SumHands(order, hands) == NOTHING
    ensures order != [] ==> order[0] in order && order[0] in hands
    ensures order != [] ==> SumHands(order, hands) == hands[order[0]].Plus(SumHands(order[1..], hands))
  {
    if order != [] {
      var first := order[0];
      assert first in order;
    }
  }

  lemma {:induction false} SumHandsGain(
    order: seq<PlayerId>, hands: map<PlayerId, Bag>, gains: map<PlayerId, Bag>, after: map<PlayerId, Bag>)
    requires forall q :: q in order ==> q in hands && q in gains && q in after
    requires forall q :: q in order ==> after[q] == hands[q].Plus(gains[q])
    ensures SumHands(order, after) == SumHands(order, hands).Plus(SumHands(order, gains))
  {
    hide SumHands;
    if order == [] {
      SumHandsUnfold(order, hands);
      SumHandsUnfold(order, gains);
      SumHandsUnfold(order, after);
    } else {
      var first, rest := order[0], order[1..];
      assert first in order && forall q :: q in rest ==> q in order;
      assert after[first] == hands[first].Plus(gains[first]);
      SumHandsGain(rest, hands, gains, after);
      SumHandsUnfold(order, hands);
      SumHandsUnfold(order, gains);
      SumHandsUnfold(order, after);
    }
  }

  lemma {:induction false} SumHandsBound(order: seq<PlayerId>, hands: map<PlayerId, Bag>, p: PlayerId)
    requires forall q :: q in order ==> q in hands && hands[q].Complete()
    ensures SumHands(order, hands).Complete()
    ensures p in order ==> SumHands(order, hands).Covers(hands[p])
  {
    if order != [] {
      var first := order[0];
      assert first in order;
      assert hands[first].Complete();
      SumHandsBound(order[1..], hands, p);
    }
  }

  // What a building yields to p: one card for a settlement, two for a city.
  function BuildingYield(b: BoardState, v: VertexId, p: PlayerId): nat {
    if v in b.buildings && b.buildings[v].owner == p then
      (if b.buildings[v].kind == Settlement then 1 else 2)
    else 0
  }

  function TileYield(b: BoardState, vs: seq<VertexId>, p: PlayerId): nat {
    if vs == [] then 0 else BuildingYield(b, vs[0], p) + TileYield(b, vs[1..], p)
  }

  predicate Produces(b: BoardState, tile: TileId, total: int) {
    && tile in b.topology.tiles && tile in b.tileContents
    && b.tileContents[tile].numberToken == Some(total)
    && tile != b.robberTileId
  }

  // The tiles that produce on a roll, in key (that is, coordinate) order.
  function ProducingTiles(b: BoardState, tiles: seq<TileId>, total: int): seq<TileId> {
    if tiles == [] then []
    else (if Produces(b, tiles[0], total) then [tiles[0]] else []) + ProducingTiles(b, tiles[1..], total)
  }

  // How many cards of resource r the given tiles owe to p.
  function DemandBy(b: BoardState, tiles: seq<TileId>, p: PlayerId, r: Resource): nat {
    if tiles == [] then 0
    else
      var tile := tiles[0];
      DemandBy(b, tiles[1..], p, r)
      + (if tile in b.topology.tiles && tile in b.tileContents && TerrainResource(b.tileContents[tile].terrain) == Some(r)
         then TileYield(b, b.topology.tiles[tile].vertexIds, p) else 0)
  }

  function TotalDemand(b: BoardState, tiles: seq<TileId>, order: seq<PlayerId>, r: Resource): nat {
    if order == [] then 0 else DemandBy(b, tiles, order[0], r) + TotalDemand(b, tiles, order[1..], r)
  }

  function EntitledCount(b: BoardState, tiles: seq<TileId>, order: seq<PlayerId>, r: Resource): nat {
    if order == [] then 0
    else (if DemandBy(b, tiles, order[0], r) > 0 then 1 else 0) + EntitledCount(b, tiles, order[1..], r)
  }

  // The bank-shortage rule: all in full, or nobody, or a sole claimant what is left.
  function Share(b: BoardState, tiles: seq<TileId>, order: seq<PlayerId>, available: int, p: PlayerId, r: Resource): int {
    if TotalDemand(b, tiles, order, r) <= available then DemandBy(b, tiles, p, r)
    else if EntitledCount(b, tiles, order, r) > 1 then 0
    else if DemandBy(b, tiles, p, r) > 0 then available
    else 0
  }

  function ShareBag(b: BoardState, tiles: seq<TileId>, order: seq<PlayerId>, bank: Bag, p: PlayerId): Bag {
    Bag(Share(b, tiles, order, bank.lumber, p, Lumber),
        Share(b, tiles, order, bank.brick, p, Brick),
        Share(b, tiles, order, bank.wool, p, Wool),
        Share(b, tiles, order, bank.grain, p, Grain),
        Share(b, tiles, order, bank.ore, p, Ore))
  }

  function Shares(b: BoardState, tiles: seq<TileId>, order: seq<PlayerId>, bank: Bag): map<PlayerId, Bag> {
    map p | p in order :: ShareBag(b, tiles, order, bank, p)
  }

  // Hands after a roll, and what is left in the bank.
  function ProducedPlayers(s: GameState, total: int): map<PlayerId, PlayerState> {
    var tiles := ProducingTiles(s.board, s.board.topology.tileOrder, total);
    map p | p in s.players ::
      if p in s.playerOrder
      then s.players[p].(resources := s.players[p].resources.Plus(ShareBag(s.board, tiles, s.playerOrder, s.bank.resources, p)))
      else s.players[p]
  }

  function ProducedBank(s: GameState, total: int): Bag {
    var tiles := ProducingTiles(s.board, s.board.topology.tileOrder, total);
    s.bank.resources.Minus(SumHands(s.playerOrder, Shares(s.board, tiles, s.playerOrder, s.bank.resources)))
  }

  function SumShare(b: BoardState, tiles: seq<TileId>, order: seq<PlayerId>, whole: seq<PlayerId>, available: int, r: Resource): int {
    if order == [] then 0
    else Share(b, tiles, whole, available, order[0], r) + SumShare(b, tiles, order[1..], whole, available, r)
  }

  lemma {:induction false} FullShares(b: BoardState, tiles: seq<TileId>, order: seq<PlayerId>, whole: seq<PlayerId>, available: int, r: Resource)
    requires TotalDemand(b, tiles, whole, r) <= available
    ensures SumShare(b, tiles, order, whole, available, r) == TotalDemand(b, tiles, order, r)
  {
    if order != [] {
      FullShares(b, tiles, order[1..], whole, available, r);
    }
  }

  function Times(available: int, n: nat): int {
    if n == 0 then 0 else available + Times(available, n - 1)
  }

  lemma {:induction false} ShortShares(b: BoardState, tiles: seq<TileId>, order: seq<PlayerId>, whole: seq<PlayerId>, available: int, r: Resource)
    requires TotalDemand(b, tiles, whole, r) > available
    ensures SumShare(b, tiles, order, whole, available, r)
         == if EntitledCount(b, tiles, whole, r) > 1 then 0 else Times(available, EntitledCount(b, tiles, order, r))
  {
    hide DemandBy, TotalDemand;
    if order != [] {
      ShortShares(b, tiles, order[1..], whole, available, r);
    }
  }

  lemma {:induction false} SomeoneEntitled(b: BoardState, tiles: seq<TileId>, order: seq<PlayerId>, r: Resource)
    ensures TotalDemand(b, tiles, order, r) > 0 <==> EntitledCount(b, tiles, order, r) > 0
  {
    if order != [] {
      SomeoneEntitled(b, tiles, order[1..], r);
    }
  }

  // What the bank pays out for one resource, whatever the demand.
  lemma PaidOut(b: BoardState, tiles: seq<TileId>, order: seq<PlayerId>, available: int, r: Resource)
    requires available >= 0
    ensures SumShare(b, tiles, order, order, available, r)
         == (if TotalDemand(b, tiles, order, r) <= available then TotalDemand(b, tiles, order, r)
             else if EntitledCount(b, tiles, order, r) > 1 then 0 else available)
    ensures 0 <= SumShare(b, tiles, order, order, available, r) <= available
  {
    SomeoneEntitled(b, tiles, order, r);
    if TotalDemand(b, tiles, order, r) <= available {
      FullShares(b, tiles, order, order, available, r);
    } else {
      ShortShares(b, tiles, order, order, available, r);
      assert Times(available, 1) == available + Times(available, 0);
    }
  }

  lemma {:induction false} SharesByResource(b: BoardState, tiles: seq<TileId>, order: seq<PlayerId>, whole: seq<PlayerId>, bank: Bag)
    requires forall p :: p in order ==> p in whole
    ensures SumHands(order, Shares(b, tiles, whole, bank))
         == Bag(SumShare(b, tiles, order, whole, bank.lumber, Lumber), SumShare(b, tiles, order, whole, bank.brick, Brick),
                SumShare(b, tiles, order, whole, bank.wool, Wool), SumShare(b, tiles, order, whole, bank.grain, Grain),
                SumShare(b, tiles, order, whole, bank.ore, Ore))
  {
    hide Share;
    if order != [] {
      var first := order[0];
      assert first in order;
      assert Shares(b, tiles, whole, bank)[first] == ShareBag(b, tiles, whole, bank, first);
      SharesByResource(b, tiles, order[1..], whole, bank);
    }
  }

  lemma ShareNonNegative(b: BoardState, tiles: seq<TileId>, order: seq<PlayerId>, bank: Bag, p: PlayerId)
    requires bank.Complete()
    ensures ShareBag(b, tiles, order, bank, p).Complete()
  {
  }

  lemma PayoutFits(b: BoardState, tiles: seq<TileId>, order: seq<PlayerId>, bank: Bag)
    requires bank.Complete()
    ensures bank.Covers(SumHands(order, Shares(b, tiles, order, bank)))
  {
    hide SumShare, TotalDemand, EntitledCount, SumHands;
    PaidOut(b, tiles, order, bank.lumber, Lumber);
    PaidOut(b, tiles, order, bank.brick, Brick);
    PaidOut(b, tiles, order, bank.wool, Wool);
    PaidOut(b, tiles, order, bank.grain, Grain);
    PaidOut(b, tiles, order, bank.ore, Ore);
    SharesByResource(b, tiles, order, order, bank);
  }

  // Production moves cards from the bank to the hands, creating none and never
  // drawing the bank below zero.
  lemma ProductionConserves(s: GameState, total: int)
    requires s.bank.resources.Complete()
    requires forall p :: p in s.playerOrder ==> p in s.players && s.players[p].resources.Complete()
    ensures ProducedPlayers(s, total).Keys == s.players.Keys
    ensures HoldingsOf(ProducedPlayers(s, total)) == HoldingsOf(s.players)
    ensures ProducedBank(s, total).Complete()
    ensures forall p :: p in s.playerOrder ==> ProducedPlayers(s, total)[p].resources.Covers(s.players[p].resources)
    ensures SumHands(s.playerOrder, HandsOf(ProducedPlayers(s, total))).Plus(ProducedBank(s, total))
         == SumHands(s.playerOrder, HandsOf(s.players)).Plus(s.bank.resources)
  {
    hide SumHands, ShareBag, ProducingTiles;
    var b, order, bank := s.board, s.playerOrder, s.bank.resources;
    var tiles := ProducingTiles(b, b.topology.tileOrder, total);
    PayoutFits(b, tiles, order, bank);
    forall p | p in order ensures ShareBag(b, tiles, order, bank, p).Complete() {
      ShareNonNegative(b, tiles, order, bank, p);
    }
    var after := HandsOf(ProducedPlayers(s, total));
    forall p | p in order ensures after[p] == HandsOf(s.players)[p].Plus(Shares(b, tiles, order, bank)[p]) {
    }
    SumHandsGain(order, HandsOf(s.players), Shares(b, tiles, order, bank), after);
  }
}

module Rules {
  import opened Board
  import opened Bags
  import opened GameModel
  import opened LongestRoad
  import opened Words
  import opened SeededRandom

  const ROAD_LIMIT := 15
  const SETTLEMENT_LIMIT := 5
  const CITY_LIMIT := 4

  // Setup placement.

  predicate HasOccupiedNeighbour(b: BoardState, v: VertexId)
    requires v in b.topology.vertices
  {
    exists w :: w in b.topology.vertices[v].adjacentVertexIds && w in b.buildings
  }

  function ValidateInitialSettlement(s: GameState, actor: PlayerId, v: VertexId): Option<Violation> {
    if v !in s.board.topology.vertices || v in s.board.buildings then Some(IllegalVertex)
    else if HasOccupiedNeighbour(s.board, v) then Some(DistanceRuleViolation)
    else if |BuildingsOf(s.board, actor, Settlement)| >= SETTLEMENT_LIMIT then Some(InsufficientPieces)
    else None
  }

  function ValidateInitialRoad(s: GameState, actor: PlayerId, e: EdgeId, pending: VertexId): Option<Violation> {
    if e !in s.board.topology.edges || e in s.board.roads then Some(IllegalEdge)
    else if s.board.topology.edges[e].a != pending && s.board.topology.edges[e].b != pending then Some(RoadNotConnected)
    else if |RoadsOf(s.board, actor)| >= ROAD_LIMIT then Some(InsufficientPieces)
    else None
  }

  // Starting resources: each tile around the settlement pays one card if the bank has it.

  datatype Grant = Grant(hand: Bag, bank: Bag, demand: Bag, granted: Bag)

  function GrantFrom(contents: map<TileId, TileContent>, tiles: seq<TileId>, g: Grant): Option<Grant>
    decreases |tiles|
  {
    if tiles == [] then Some(g)
    else if tiles[0] !in contents then None
    else
      match TerrainResource(contents[tiles[0]].terrain)
      case None => GrantFrom(contents, tiles[1..], g)
      case Some(r) =>
        var asked := g.(demand := g.demand.Set(r, g.demand.Get(r) + 1));
        var paid :=
          if g.bank.Get(r) > 0 then
            asked.(bank := g.bank.Set(r, g.bank.Get(r) - 1), hand := g.hand.Set(r, g.hand.Get(r) + 1),
                   granted := g.granted.Set(r, g.granted.Get(r) + 1))
          else asked;
        GrantFrom(contents, tiles[1..], paid)
  }

  // None when the settlement's vertex, its owner or a tile's content is unknown: the source throws.
  function GrantStartingResources(s: GameState, p: PlayerId, v: VertexId): Option<Grant> {
    if p !in s.players || v !in s.board.topology.vertices then None
    else GrantFrom(s.board.tileContents, s.board.topology.vertices[v].tileIds,
                   Grant(s.players[p].resources, s.bank.resources, NOTHING, NOTHING))
  }

  method GrantLoop(contents: map<TileId, TileContent>, tiles: seq<TileId>, hand: Bag, bank: Bag)
    returns (result: Option<Grant>)
    ensures result == GrantFrom(contents, tiles, Grant(hand, bank, NOTHING, NOTHING))
  {
    var bankResources, playerResources, demand, granted := bank, hand, NOTHING, NOTHING;
    for i := 0 to |tiles|
      invariant GrantFrom(contents, tiles[i..], Grant(playerResources, bankResources, demand, granted))
             == GrantFrom(contents, tiles, Grant(hand, bank, NOTHING, NOTHING))
    {
      assert tiles[i..][1..] == tiles[i + 1..];
      var tile := tiles[i];
      if tile !in contents {
        return None;
      }
      var terrain := TerrainResource(contents[tile].terrain);
      if terrain.Some? {
        var r := terrain.value;
        demand := demand.Set(r, demand.Get(r) + 1);
        if bankResources.Get(r) > 0 {
          bankResources := bankResources.Set(r, bankResources.Get(r) - 1);
          playerResources := playerResources.Set(r, playerResources.Get(r) + 1);
          granted := granted.Set(r, granted.Get(r) + 1);
        }
      }
    }
    result := Some(Grant(playerResources, bankResources, demand, granted));
  }

  // Roads after setup.

  datatype Connection = Connected | Blocked | Disconnected

  predicate HasRoadAt(b: BoardState, actor: PlayerId, v: VertexId, target: EdgeId)
    requires v in b.topology.vertices
  {
    exists e :: e in b.topology.vertices[v].edgeIds && e != target && OwnsRoad(b, actor, e)
  }

  predicate ConnectsAt(b: BoardState, actor: PlayerId, v: VertexId, target: EdgeId)
    requires v in b.topology.vertices
  {
    OwnsBuilding(b, actor, v) || (v !in b.buildings && HasRoadAt(b, actor, v, target))
  }

  predicate BlockedAt(b: BoardState, actor: PlayerId, v: VertexId, target: EdgeId)
    requires v in b.topology.vertices
  {
    v in b.buildings && b.buildings[v].owner != actor && HasRoadAt(b, actor, v, target)
  }

  predicate KnownEnds(b: BoardState, e: EdgeId) {
    e in b.topology.edges && b.topology.edges[e].a in b.topology.vertices && b.topology.edges[e].b in b.topology.vertices
  }

  function ClassifyConnection(b: BoardState, actor: PlayerId, e: EdgeId): Connection
    requires KnownEnds(b, e)
  {
    var d := b.topology.edges[e];
    if ConnectsAt(b, actor, d.a, e) || ConnectsAt(b, actor, d.b, e) then Connected
    else if BlockedAt(b, actor, d.a, e) || BlockedAt(b, actor, d.b, e) then Blocked
    else Disconnected
  }

  // The classification loop with its early returns and its `blocked` flag.
  method ClassifyLoop(b: BoardState, actor: PlayerId, e: EdgeId) returns (connection: Connection)
    requires KnownEnds(b, e)
    ensures connection == ClassifyConnection(b, actor, e)
  {
    var ends := [b.topology.edges[e].a, b.topology.edges[e].b];
    var blocked := false;
    for i := 0 to |ends|
      invariant forall k :: 0 <= k < i ==> !ConnectsAt(b, actor, ends[k], e)
      invariant blocked <==> exists k :: 0 <= k < i && BlockedAt(b, actor, ends[k], e)
    {
      var v := ends[i];
      if OwnsBuilding(b, actor, v) {
        return Connected;
      }
      var hasRoad := HasRoadAt(b, actor, v, e);
      if v !in b.buildings {
        if hasRoad {
          return Connected;
        }
      } else if hasRoad {
        blocked := true;
      }
    }
    assert !ConnectsAt(b, actor, ends[0], e) && !ConnectsAt(b, actor, ends[1], e);
    assert blocked <==> BlockedAt(b, actor, ends[0], e) || BlockedAt(b, actor, ends[1], e);
    connection := if blocked then Blocked else Disconnected;
  }

  // None when a vertex is missing from the topology: the source throws.
  function ValidateFreeRoad(b: BoardState, actor: PlayerId, e: EdgeId): Option<Violation>
    requires e in b.topology.edges ==> KnownEnds(b, e)
  {
    if e !in b.topology.edges || e in b.roads then Some(IllegalEdge)
    else
      match ClassifyConnection(b, actor, e)
      case Blocked => Some(RoadBlocked)
      case Disconnected => Some(RoadNotConnected)
      case Connected => if |RoadsOf(b, actor)| >= ROAD_LIMIT then Some(InsufficientPieces) else None
  }

  function ValidatePaidRoad(s: GameState, actor: PlayerId, e: EdgeId): Option<Violation>
    requires actor in s.players
    requires e in s.board.topology.edges ==> KnownEnds(s.board, e)
  {
    var placement := ValidateFreeRoad(s.board, actor, e);
    if placement.Some? then placement
    else if !s.players[actor].resources.Covers(ROAD_COST) then Some(InsufficientResources)
    else None
  }

  function ValidatePaidSettlement(s: GameState, actor: PlayerId, v: VertexId): Option<Violation>
    requires actor in s.players
  {
    if v !in s.board.topology.vertices || v in s.board.buildings then Some(IllegalVertex)
    else if HasOccupiedNeighbour(s.board, v) then Some(DistanceRuleViolation)
    else if !exists e :: e in s.board.topology.vertices[v].edgeIds && OwnsRoad(s.board, actor, e) then Some(RoadNotConnected)
    else if |BuildingsOf(s.board, actor, Settlement)| >= SETTLEMENT_LIMIT then Some(InsufficientPieces)
    else if !s.players[actor].resources.Covers(SETTLEMENT_COST) then Some(InsufficientResources)
    else None
  }

  function ValidateCityUpgrade(s: GameState, actor: PlayerId, v: VertexId): Option<Violation>
    requires actor in s.players
  {
    if v !in s.board.topology.vertices || v !in s.board.buildings
       || s.board.buildings[v] != Building(Settlement, actor) then Some(IllegalVertex)
    else if |BuildingsOf(s.board, actor, City)| >= CITY_LIMIT then Some(InsufficientPieces)
    else if !s.players[actor].resources.Covers(CITY_COST) then Some(InsufficientResources)
    else None
  }

  // Development cards.

  // The first card with the given ID.
  function FindCard(cards: seq<OwnedCard>, id: int): Option<OwnedCard> {
    if cards == [] then None
    else if cards[0].id == id then Some(cards[0])
    else FindCard(cards[1..], id)
  }

  function ReplaceStatus(cards: seq<OwnedCard>, id: int, status: CardStatus): seq<OwnedCard> {
    seq(|cards|, i requires 0 <= i < |cards| => if cards[i].id == id then cards[i].(status := status) else cards[i])
  }

  function RevealPoints(cards: seq<OwnedCard>): seq<OwnedCard> {
    seq(|cards|, i requires 0 <= i < |cards| =>
      if cards[i].kind == VictoryPoint && cards[i].status == InHand then cards[i].(status := Revealed) else cards[i])
  }

  function ResumePhase(s: GameState): Phase {
    if s.turn.lastRoll.None? then RollRequired else Action
  }

  function ValidatePlayable(s: GameState, p: PlayerId, id: int): Option<Violation>
    requires p in s.players
  {
    var found := FindCard(s.players[p].cards, id);
    if found.None? then Some(CardNotOwned)
    else if found.value.status != InHand || found.value.kind == VictoryPoint then Some(CardNotPlayable)
    else if found.value.acquired >= s.turn.turnNumber then Some(CardNotPlayable)
    else if s.turn.cardPlayed then Some(CardLimitReached)
    else None
  }

  // Every edge's ends are known vertices.
  ghost predicate KnownEdges(b: BoardState) {
    forall e :: e in b.topology.edges ==> KnownEnds(b, e)
  }

  ghost predicate HasLegalFreeRoad(b: BoardState, p: PlayerId)
    requires KnownEdges(b)
  {
    exists e :: e in b.topology.edges && ValidateFreeRoad(b, p, e).None?
  }

  ghost function RemainingFreeRoadCount(b: BoardState, p: PlayerId): Option<int>
    requires KnownEdges(b)
  {
    var remaining := ROAD_LIMIT - |RoadsOf(b, p)|;
    if remaining <= 0 || !HasLegalFreeRoad(b, p) then None
    else Some(if remaining >= 2 then 2 else 1)
  }

  function ValidateInvention(selection: Bag, bank: Bag): Option<Violation> {
    if !selection.Complete() || selection.Total() != 2 then Some(CardNotPlayable)
    else if !bank.Covers(selection) then Some(BankResourceUnavailable)
    else None
  }

  // What the other players hold of one resource.
  function HeldByOthers(order: seq<PlayerId>, hands: map<PlayerId, Bag>, actor: PlayerId, r: Resource): int
    requires forall p :: p in order ==> p in hands
  {
    if order == [] then 0
    else
      var first := order[0];
      assert first in order;
      (if first == actor then 0 else hands[first].Get(r)) + HeldByOthers(order[1..], hands, actor, r)
  }

  function MonopolyPlayers(s: GameState, actor: PlayerId, r: Resource): map<PlayerId, PlayerState>
    requires actor in s.players
    requires forall p :: p in s.playerOrder ==> p in s.players
  {
    map p | p in s.players ::
      if p == actor then
        s.players[p].(resources := s.players[p].resources.Set(r,
          s.players[p].resources.Get(r) + HeldByOthers(s.playerOrder, HandsOf(s.players), actor, r)))
      else if p in s.playerOrder then s.players[p].(resources := s.players[p].resources.Set(r, 0))
      else s.players[p]
  }

  // Discards, robber targets and trades.

  function ValidateDiscard(selection: Bag, hand: Bag, required: int): Option<Violation> {
    if !selection.Complete() || !hand.Covers(selection) || selection.Total() != required then Some(InvalidDiscard)
    else None
  }

  predicate TileTouches(b: BoardState, tile: TileId, p: PlayerId)
    requires tile in b.topology.tiles
  {
    exists v :: v in b.topology.tiles[tile].vertexIds && OwnsBuilding(b, p, v)
  }

  // Other players beside the tile who hold a card, in player order.
  function EligibleTargets(
    b: BoardState, players: map<PlayerId, PlayerState>, order: seq<PlayerId>, tile: TileId, actor: PlayerId): seq<PlayerId>
    requires tile in b.topology.tiles
    requires forall p :: p in order ==> p in players
  {
    if order == [] then []
    else
      var first := order[0];
      assert first in order;
      (if first != actor && TileTouches(b, tile, first) && players[first].resources.Total() > 0 then [first] else [])
      + EligibleTargets(b, players, order[1..], tile, actor)
  }

  predicate IsBlank(c: char) {
    || '\t' <= c <= '\r' || c == ' ' || c == '\U{A0}' || c == '\U{1680}' || '\U{2000}' <= c <= '\U{200A}'
    || c == '\U{2028}' || c == '\U{2029}' || c == '\U{202F}' || c == '\U{205F}' || c == '\U{3000}' || c == '\U{FEFF}'
  }

  predicate NonBlank(id: TradeId) {
    exists i :: 0 <= i < |id| && !IsBlank(id[i])
  }

  predicate ValidInitialParties(s: GameState, actor: PlayerId, offer: TradeOffer) {
    && NonBlank(offer.tradeId)
    && offer.initiator == actor
    && offer.initiator == s.turn.current
    && offer.counterparty != offer.initiator
    && offer.counterparty in s.players
    && offer.proposedBy == offer.initiator
    && offer.parent.None?
  }

  predicate ValidCounterLineage(pending: Pending, actor: PlayerId, offer: TradeOffer)
    requires pending.RespondToTrade?
  {
    && NonBlank(offer.tradeId)
    && offer.initiator == pending.offer.initiator
    && offer.counterparty == pending.offer.counterparty
    && offer.proposedBy == actor
    && actor == pending.offer.counterparty
    && offer.parent == Some(pending.offer.tradeId)
    && offer.tradeId != pending.offer.tradeId
  }

  predicate Overlaps(a: Bag, b: Bag) {
    || (a.lumber > 0 && b.lumber > 0) || (a.brick > 0 && b.brick > 0) || (a.wool > 0 && b.wool > 0)
    || (a.grain > 0 && b.grain > 0) || (a.ore > 0 && b.ore > 0)
  }

  predicate ValidBundles(offer: TradeOffer) {
    && offer.initiatorGives.Complete() && offer.counterpartyGives.Complete()
    && offer.initiatorGives.Total() > 0 && offer.counterpartyGives.Total() > 0
  }

  predicate CanProvide(hand: Bag, bundle: Bag) {
    bundle.Complete() && hand.Covers(bundle)
  }

  predicate ControlsPort(b: BoardState, p: PlayerId, port: PortDefinition) {
    OwnsBuilding(b, p, port.a) || OwnsBuilding(b, p, port.b)
  }

  function MaritimeRatio(b: BoardState, p: PlayerId, give: Resource): int {
    if exists i :: 0 <= i < |b.topology.ports| && ControlsPort(b, p, b.topology.ports[i])
                   && b.topology.ports[i].kind == ForResource(give) then 2
    else if exists i :: 0 <= i < |b.topology.ports| && ControlsPort(b, p, b.topology.ports[i])
                        && b.topology.ports[i].kind == Generic then 3
    else 4
  }

  // Scoring.

  function CardPoints(cards: seq<OwnedCard>): nat {
    if cards == [] then 0
    else (if cards[0].kind == VictoryPoint && cards[0].status != Played then 1 else 0) + CardPoints(cards[1..])
  }

  function PlayedKnightCount(cards: seq<OwnedCard>): nat {
    if cards == [] then 0
    else (if cards[0].kind == Knight && cards[0].status == Played then 1 else 0) + PlayedKnightCount(cards[1..])
  }

  // A player's actual points, hidden Victory Point cards included.
  function Points(board: BoardState, awards: Awards, p: PlayerId, cards: seq<OwnedCard>): nat {
    |BuildingsOf(board, p, Settlement)| + 2 * |BuildingsOf(board, p, City)|
    + (if awards.longestRoad == Some(p) then 2 else 0)
    + (if awards.largestArmy == Some(p) then 2 else 0)
    + CardPoints(cards)
  }

  function MaxValue(order: seq<PlayerId>, values: map<PlayerId, nat>): nat
    requires forall p :: p in order ==> p in values
  {
    if order == [] then 0
    else
      var first := order[0];
      assert first in order;
      Max(values[first], MaxValue(order[1..], values))
  }

  function Leaders(order: seq<PlayerId>, values: map<PlayerId, nat>, minimum: nat, maximum: nat): seq<PlayerId>
    requires forall p :: p in order ==> p in values
  {
    if order == [] then []
    else
      var first := order[0];
      assert first in order;
      (if values[first] >= minimum && values[first] == maximum then [first] else [])
      + Leaders(order[1..], values, minimum, maximum)
  }

  // The holder keeps an award while unbeaten; otherwise only a sole leader takes it.
  function DeriveHolder(order: seq<PlayerId>, values: map<PlayerId, nat>, holder: Option<PlayerId>, minimum: nat): Option<PlayerId>
    requires forall p :: p in order ==> p in values
  {
    var maximum := MaxValue(order, values);
    if holder.Some? && holder.value in values && values[holder.value] >= minimum && values[holder.value] == maximum then holder
    else
      var leaders := Leaders(order, values, minimum, maximum);
      if |leaders| == 1 then Some(leaders[0]) else None
  }
}
