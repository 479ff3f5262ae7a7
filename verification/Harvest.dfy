// What the board owes on a roll, said of tiles and corners, and the production rule read off it.

module Harvest {
  import opened Board
  import opened Bags
  import opened GameModel
  import opened Production

  function TerrainFor(r: Resource): Terrain {
    match r
    case Lumber => Forest
    case Brick => Hills
    case Wool => Pasture
    case Grain => Fields
    case Ore => Mountains
  }

  // A tile of the resource's terrain that carries the rolled number, with the robber elsewhere.
  predicate IsHarvested(b: BoardState, tile: TileId, total: int, r: Resource) {
    && tile in b.topology.tiles && tile != b.robberTileId
    && tile in b.tileContents && b.tileContents[tile] == TileContent(TerrainFor(r), Some(total))
  }

  // A building at a corner of such a tile counts once for every tile it is at.
  datatype Corner = Corner(tile: TileId, vertex: VertexId)

  function OwnCorners(b: BoardState, total: int, p: PlayerId, r: Resource, kind: BuildingType): set<Corner> {
    set tile, v | tile in b.topology.tiles && v in b.topology.tiles[tile].vertexIds && IsHarvested(b, tile, total, r)
                  && v in b.buildings && b.buildings[v] == Building(kind, p) :: Corner(tile, v)
  }

  function AllCorners(b: BoardState, total: int, r: Resource, kind: BuildingType): set<Corner> {
    set tile, v | tile in b.topology.tiles && v in b.topology.tiles[tile].vertexIds && IsHarvested(b, tile, total, r)
                  && v in b.buildings && b.buildings[v].kind == kind :: Corner(tile, v)
  }

  // A settlement is owed one card, a city two.
  function Owed(b: BoardState, total: int, p: PlayerId, r: Resource): nat {
    |OwnCorners(b, total, p, r, Settlement)| + 2 * |OwnCorners(b, total, p, r, City)|
  }

  function OwedToAll(b: BoardState, total: int, r: Resource): nat {
    |AllCorners(b, total, r, Settlement)| + 2 * |AllCorners(b, total, r, City)|
  }

  function Claimants(s: GameState, total: int, r: Resource): set<PlayerId> {
    set p | p in s.playerOrder && Owed(s.board, total, p, r) > 0
  }

  // Everybody's claim if the bank has enough; otherwise a lone claimant takes what is left of the
  // resource, and several get nothing.
  function Due(s: GameState, total: int, p: PlayerId, r: Resource): int {
    if OwedToAll(s.board, total, r) <= s.bank.resources.Get(r) then Owed(s.board, total, p, r)
    else if Claimants(s, total, r) == {p} then s.bank.resources.Get(r)
    else 0
  }

  function DueCards(s: GameState, total: int, p: PlayerId): Bag {
    Bag(Due(s, total, p, Lumber), Due(s, total, p, Brick), Due(s, total, p, Wool), Due(s, total, p, Grain), Due(s, total, p, Ore))
  }

  // The claims as the engine adds them up.

  lemma TerrainsAre(terrain: Terrain, r: Resource)
    ensures TerrainResource(terrain) == Some(r) <==> terrain == TerrainFor(r)
  {
  }

  function Members<T>(s: seq<T>): set<T> {
    set x | x in s
  }

  lemma MembersUnfold<T>(s: seq<T>)
    requires s != [] && Distinct(s)
    ensures Members(s) == {s[0]} + Members(s[1..]) && s[0] !in Members(s[1..])
  {
    assert s == [s[0]] + s[1..];
    assert s[0] !in s[1..];
  }

  function OwnAt(b: BoardState, vs: seq<VertexId>, p: PlayerId, kind: BuildingType): set<VertexId> {
    set v | v in vs && v in b.buildings && b.buildings[v] == Building(kind, p)
  }

  lemma OwnAtUnfold(b: BoardState, vs: seq<VertexId>, p: PlayerId, kind: BuildingType)
    requires vs != [] && Distinct(vs)
    ensures vs[0] !in OwnAt(b, vs[1..], p, kind)
    ensures OwnAt(b, vs, p, kind) == OwnAt(b, vs[1..], p, kind)
              + (if vs[0] in b.buildings && b.buildings[vs[0]] == Building(kind, p) then {vs[0]} else {})
  {
    assert vs == [vs[0]] + vs[1..];
    assert vs[0] !in vs[1..];
  }

  lemma {:induction false} TileYieldIs(b: BoardState, vs: seq<VertexId>, p: PlayerId)
    requires Distinct(vs)
    ensures TileYield(b, vs, p) == |OwnAt(b, vs, p, Settlement)| + 2 * |OwnAt(b, vs, p, City)|
  {
    hide OwnAt;
    if vs == [] {
      NoneAt(b, p, Settlement);
      NoneAt(b, p, City);
    } else {
      TileYieldIs(b, vs[1..], p);
      OwnAtUnfold(b, vs, p, Settlement);
      OwnAtUnfold(b, vs, p, City);
    }
  }

  lemma NoneAt(b: BoardState, p: PlayerId, kind: BuildingType)
    ensures OwnAt(b, [], p, kind) == {}
  {
  }

  function CornersAt(tile: TileId, vs: set<VertexId>): set<Corner> {
    set v | v in vs :: Corner(tile, v)
  }

  lemma {:induction false} CornersCount(tile: TileId, vs: set<VertexId>)
    ensures |CornersAt(tile, vs)| == |vs|
  {
    if vs == {} {
      assert CornersAt(tile, vs) == {};
    } else {
      var v := NonEmptySet(vs);
      CornersCount(tile, vs - {v});
      assert CornersAt(tile, vs) == CornersAt(tile, vs - {v}) + {Corner(tile, v)};
    }
  }

  function CornersIn(b: BoardState, tiles: set<TileId>, total: int, p: PlayerId, r: Resource, kind: BuildingType): set<Corner> {
    set corner | corner in OwnCorners(b, total, p, r, kind) && corner.tile in tiles
  }

  predicate IsOwnCorner(b: BoardState, total: int, p: PlayerId, r: Resource, kind: BuildingType, corner: Corner) {
    && IsHarvested(b, corner.tile, total, r) && corner.vertex in b.topology.tiles[corner.tile].vertexIds
    && corner.vertex in b.buildings && b.buildings[corner.vertex] == Building(kind, p)
  }

  lemma OwnCornersAre(b: BoardState, total: int, p: PlayerId, r: Resource, kind: BuildingType)
    ensures forall corner :: corner in OwnCorners(b, total, p, r, kind) <==> IsOwnCorner(b, total, p, r, kind, corner)
  {
    hide TerrainFor;
    forall corner ensures corner in OwnCorners(b, total, p, r, kind) <==> IsOwnCorner(b, total, p, r, kind, corner) {
      assert corner == Corner(corner.tile, corner.vertex);
    }
  }

  lemma CornersUnfold(b: BoardState, tile: TileId, rest: set<TileId>, total: int, p: PlayerId, r: Resource, kind: BuildingType)
    requires tile !in rest && tile in b.topology.tiles
    ensures var own := OwnAt(b, b.topology.tiles[tile].vertexIds, p, kind);
            |CornersIn(b, {tile} + rest, total, p, r, kind)|
            == |CornersIn(b, rest, total, p, r, kind)| + (if IsHarvested(b, tile, total, r) then |own| else 0)
  {
    hide OwnCorners, TerrainFor;
    var some, all := CornersIn(b, rest, total, p, r, kind), CornersIn(b, {tile} + rest, total, p, r, kind);
    var own := OwnAt(b, b.topology.tiles[tile].vertexIds, p, kind);
    OwnCornersAre(b, total, p, r, kind);
    if IsHarvested(b, tile, total, r) {
      CornersCount(tile, own);
      forall corner ensures corner in CornersAt(tile, own) <==> IsOwnCorner(b, total, p, r, kind, corner) && corner.tile == tile {
        assert corner == Corner(corner.tile, corner.vertex);
      }
      assert all == some + CornersAt(tile, own) && some !! CornersAt(tile, own);
    } else {
      assert all == some;
    }
  }

  lemma DemandUnfold(b: BoardState, tile: TileId, rest: seq<TileId>, p: PlayerId, r: Resource)
    requires tile in b.topology.tiles && tile in b.tileContents
    ensures DemandBy(b, [tile] + rest, p, r)
         == DemandBy(b, rest, p, r)
            + (if b.tileContents[tile].terrain == TerrainFor(r) then TileYield(b, b.topology.tiles[tile].vertexIds, p) else 0)
  {
    TerrainsAre(b.tileContents[tile].terrain, r);
    assert ([tile] + rest)[1..] == rest;
  }

  lemma HarvestedIs(b: BoardState, tile: TileId, total: int, r: Resource)
    ensures IsHarvested(b, tile, total, r) <==> Produces(b, tile, total) && b.tileContents[tile].terrain == TerrainFor(r)
  {
  }

  lemma ProducingUnfold(b: BoardState, tiles: seq<TileId>, total: int)
    requires tiles != []
    ensures ProducingTiles(b, tiles, total)
         == if Produces(b, tiles[0], total) then [tiles[0]] + ProducingTiles(b, tiles[1..], total) else ProducingTiles(b, tiles[1..], total)
  {
  }

  lemma NoDemand(b: BoardState, total: int, p: PlayerId, r: Resource)
    ensures DemandBy(b, ProducingTiles(b, [], total), p, r) == 0
  {
  }

  lemma {:induction false} DemandIs(b: BoardState, tiles: seq<TileId>, total: int, p: PlayerId, r: Resource)
    requires ValidTopology(b.topology) && Distinct(tiles) && forall tile :: tile in tiles ==> tile in b.topology.tiles
    ensures DemandBy(b, ProducingTiles(b, tiles, total), p, r)
         == |CornersIn(b, Members(tiles), total, p, r, Settlement)| + 2 * |CornersIn(b, Members(tiles), total, p, r, City)|
  {
    hide CornersIn, OwnAt, TileYield, IsHarvested, ProducingTiles, DemandBy;
    if tiles == [] {
      assert Members(tiles) == {};
      NoCorners(b, total, p, r, Settlement);
      NoCorners(b, total, p, r, City);
      NoDemand(b, total, p, r);
    } else {
      var tile := tiles[0];
      assert tile in tiles && ValidTile(b.topology, tile);
      DemandIs(b, tiles[1..], total, p, r);
      MembersUnfold(tiles);
      CornersUnfold(b, tile, Members(tiles[1..]), total, p, r, Settlement);
      CornersUnfold(b, tile, Members(tiles[1..]), total, p, r, City);
      TileYieldIs(b, b.topology.tiles[tile].vertexIds, p);
      HarvestedIs(b, tile, total, r);
      ProducingUnfold(b, tiles, total);
      if Produces(b, tile, total) {
        DemandUnfold(b, tile, ProducingTiles(b, tiles[1..], total), p, r);
      }
    }
  }

  lemma NoCorners(b: BoardState, total: int, p: PlayerId, r: Resource, kind: BuildingType)
    ensures CornersIn(b, {}, total, p, r, kind) == {}
  {
  }

  // What the engine's tiles owe a player is what the corners say.
  lemma DemandIsOwed(b: BoardState, total: int, p: PlayerId, r: Resource)
    requires ValidTopology(b.topology)
    ensures DemandBy(b, ProducingTiles(b, b.topology.tileOrder, total), p, r) == Owed(b, total, p, r)
  {
    DemandIs(b, b.topology.tileOrder, total, p, r);
    hide ProducingTiles, DemandBy, IsHarvested;
    assert CornersIn(b, Members(b.topology.tileOrder), total, p, r, Settlement) == OwnCorners(b, total, p, r, Settlement);
    assert CornersIn(b, Members(b.topology.tileOrder), total, p, r, City) == OwnCorners(b, total, p, r, City);
  }

  // All claims together.

  lemma NoCornersOf(b: BoardState, total: int, r: Resource, kind: BuildingType)
    ensures CornersOf(b, total, {}, r, kind) == {}
  {
  }

  function CornersOf(b: BoardState, total: int, players: set<PlayerId>, r: Resource, kind: BuildingType): set<Corner> {
    set corner | corner in AllCorners(b, total, r, kind) && corner.vertex in b.buildings && b.buildings[corner.vertex].owner in players
  }

  predicate IsCorner(b: BoardState, total: int, r: Resource, kind: BuildingType, corner: Corner) {
    && IsHarvested(b, corner.tile, total, r) && corner.vertex in b.topology.tiles[corner.tile].vertexIds
    && corner.vertex in b.buildings && b.buildings[corner.vertex].kind == kind
  }

  lemma AllCornersAre(b: BoardState, total: int, r: Resource, kind: BuildingType)
    ensures forall corner :: corner in AllCorners(b, total, r, kind) <==> IsCorner(b, total, r, kind, corner)
  {
    hide TerrainFor;
    forall corner ensures corner in AllCorners(b, total, r, kind) <==> IsCorner(b, total, r, kind, corner) {
      assert corner == Corner(corner.tile, corner.vertex);
    }
  }

  lemma CornersOfUnfold(b: BoardState, total: int, p: PlayerId, others: set<PlayerId>, r: Resource, kind: BuildingType)
    requires p !in others
    ensures |CornersOf(b, total, {p} + others, r, kind)| == |OwnCorners(b, total, p, r, kind)| + |CornersOf(b, total, others, r, kind)|
  {
    hide AllCorners, OwnCorners, IsHarvested;
    var own, rest := OwnCorners(b, total, p, r, kind), CornersOf(b, total, others, r, kind);
    AllCornersAre(b, total, r, kind);
    OwnCornersAre(b, total, p, r, kind);
    assert CornersOf(b, total, {p} + others, r, kind) == own + rest && own !! rest;
  }

  lemma {:induction false} TotalIs(b: BoardState, total: int, order: seq<PlayerId>, r: Resource)
    requires ValidTopology(b.topology) && Distinct(order)
    ensures TotalDemand(b, ProducingTiles(b, b.topology.tileOrder, total), order, r)
         == |CornersOf(b, total, Members(order), r, Settlement)| + 2 * |CornersOf(b, total, Members(order), r, City)|
  {
    hide ValidTopology, DemandBy, ProducingTiles, OwnCorners, AllCorners;
    if order == [] {
      assert Members(order) == {};
      NoCornersOf(b, total, r, Settlement);
      NoCornersOf(b, total, r, City);
    } else {
      hide CornersOf;
      TotalIs(b, total, order[1..], r);
      DemandIsOwed(b, total, order[0], r);
      MembersUnfold(order);
      CornersOfUnfold(b, total, order[0], Members(order[1..]), r, Settlement);
      CornersOfUnfold(b, total, order[0], Members(order[1..]), r, City);
    }
  }

  // Every building is a player's.
  ghost predicate OwnersKnown(s: GameState) {
    forall v :: v in s.board.buildings ==> s.board.buildings[v].owner in s.playerOrder
  }

  lemma TotalIsOwedToAll(s: GameState, total: int, r: Resource)
    requires ValidTopology(s.board.topology) && Distinct(s.playerOrder) && OwnersKnown(s)
    ensures TotalDemand(s.board, ProducingTiles(s.board, s.board.topology.tileOrder, total), s.playerOrder, r)
         == OwedToAll(s.board, total, r)
  {
    hide ValidTopology, DemandBy, ProducingTiles, TotalDemand, IsHarvested;
    TotalIs(s.board, total, s.playerOrder, r);
    assert CornersOf(s.board, total, Members(s.playerOrder), r, Settlement) == AllCorners(s.board, total, r, Settlement);
    assert CornersOf(s.board, total, Members(s.playerOrder), r, City) == AllCorners(s.board, total, r, City);
  }

  // The shares are what is due.

  function ClaimantsAmong(b: BoardState, tiles: seq<TileId>, order: seq<PlayerId>, r: Resource): set<PlayerId> {
    set p | p in order && DemandBy(b, tiles, p, r) > 0
  }

  lemma ClaimantsUnfold(b: BoardState, tiles: seq<TileId>, order: seq<PlayerId>, r: Resource)
    requires order != []
    ensures ClaimantsAmong(b, tiles, order, r)
         == ClaimantsAmong(b, tiles, order[1..], r) + (if DemandBy(b, tiles, order[0], r) > 0 then {order[0]} else {})
    ensures order[0] in ClaimantsAmong(b, tiles, order[1..], r) ==> order[0] in order[1..]
  {
    hide DemandBy;
    var first, rest := order[0], order[1..];
    assert order == [first] + rest;
    forall p ensures p in order <==> p == first || p in rest {
    }
  }

  lemma {:induction false} ClaimantsCount(b: BoardState, tiles: seq<TileId>, order: seq<PlayerId>, r: Resource)
    requires Distinct(order)
    ensures |ClaimantsAmong(b, tiles, order, r)| == EntitledCount(b, tiles, order, r)
  {
    hide DemandBy;
    if order == [] {
      assert ClaimantsAmong(b, tiles, order, r) == {};
    } else {
      hide ClaimantsAmong;
      ClaimantsCount(b, tiles, order[1..], r);
      ClaimantsUnfold(b, tiles, order, r);
      assert order[0] !in order[1..];
    }
  }

  lemma OneIsAll(some: set<PlayerId>, p: PlayerId)
    requires p in some
    ensures |some| <= 1 <==> some == {p}
  {
    assert |some - {p}| == |some| - 1;
    if |some| <= 1 {
      assert some - {p} == {};
    }
  }

  lemma ClaimantsAre(s: GameState, total: int, r: Resource)
    requires ValidTopology(s.board.topology)
    ensures ClaimantsAmong(s.board, ProducingTiles(s.board, s.board.topology.tileOrder, total), s.playerOrder, r) == Claimants(s, total, r)
  {
    hide DemandBy, ProducingTiles, Owed, ValidTopology;
    forall p | p in s.playerOrder
      ensures DemandBy(s.board, ProducingTiles(s.board, s.board.topology.tileOrder, total), p, r) == Owed(s.board, total, p, r)
    {
      DemandIsOwed(s.board, total, p, r);
    }
  }

  lemma DueIs(s: GameState, total: int, p: PlayerId, r: Resource)
    requires ValidTopology(s.board.topology) && Distinct(s.playerOrder) && OwnersKnown(s) && p in s.playerOrder
    ensures Due(s, total, p, r)
         == Share(s.board, ProducingTiles(s.board, s.board.topology.tileOrder, total), s.playerOrder, s.bank.resources.Get(r), p, r)
  {
    hide DemandBy, TotalDemand, ProducingTiles, Owed, OwedToAll, ValidTopology, Bag.Get;
    var tiles := ProducingTiles(s.board, s.board.topology.tileOrder, total);
    DemandIsOwed(s.board, total, p, r);
    TotalIsOwedToAll(s, total, r);
    ClaimantsAre(s, total, r);
    ClaimantsCount(s.board, tiles, s.playerOrder, r);
    hide EntitledCount, ClaimantsAmong;
    if p in Claimants(s, total, r) {
      OneIsAll(Claimants(s, total, r), p);
    }
  }

  // For each resource the engine pays every player exactly what is due.
  lemma SharesAreDue(s: GameState, total: int, p: PlayerId)
    requires ValidTopology(s.board.topology) && Distinct(s.playerOrder) && OwnersKnown(s) && p in s.playerOrder
    ensures ShareBag(s.board, ProducingTiles(s.board, s.board.topology.tileOrder, total), s.playerOrder, s.bank.resources, p)
         == DueCards(s, total, p)
  {
    hide Due, Share, ProducingTiles, ValidTopology, OwnersKnown;
    DueIs(s, total, p, Lumber);
    DueIs(s, total, p, Brick);
    DueIs(s, total, p, Wool);
    DueIs(s, total, p, Grain);
    DueIs(s, total, p, Ore);
  }
}
