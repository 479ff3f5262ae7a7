// The board: identifiers, topology, content and occupancy.

module Board {
  type PlayerId = int
  type VertexId = int

  // An edge ID spells out its two endpoints, lower one first.
  datatype EdgeId = EdgeId(lo: VertexId, hi: VertexId)

  // A tile ID spells out its axial coordinate.
  datatype TileId = TileId(q: int, r: int)

  datatype Option<T> = None | Some(value: T)

  datatype Resource = Lumber | Brick | Wool | Grain | Ore

  const RESOURCE_TYPES := [Lumber, Brick, Wool, Grain, Ore]

  datatype Terrain = Forest | Hills | Pasture | Fields | Mountains | Desert

  function TerrainResource(terrain: Terrain): Option<Resource> {
    match terrain
    case Forest => Some(Lumber)
    case Hills => Some(Brick)
    case Pasture => Some(Wool)
    case Fields => Some(Grain)
    case Mountains => Some(Ore)
    case Desert => None
  }

  datatype TileDefinition = TileDefinition(vertexIds: seq<VertexId>)

  datatype VertexDefinition = VertexDefinition(
    adjacentVertexIds: seq<VertexId>, edgeIds: seq<EdgeId>, tileIds: seq<TileId>)

  datatype EdgeDefinition = EdgeDefinition(a: VertexId, b: VertexId, tileIds: seq<TileId>, coastal: bool)

  datatype PortKind = Generic | ForResource(resource: Resource)

  datatype PortDefinition = PortDefinition(a: VertexId, b: VertexId, kind: PortKind)

  // `edgeOrder` and `tileOrder` are the key orders of the two records.
  datatype Topology = Topology(
    tiles: map<TileId, TileDefinition>,
    vertices: map<VertexId, VertexDefinition>,
    edges: map<EdgeId, EdgeDefinition>,
    ports: seq<PortDefinition>,
    edgeOrder: seq<EdgeId>,
    tileOrder: seq<TileId>)

  function CreateEdgeId(left: VertexId, right: VertexId): EdgeId {
    if left < right then EdgeId(left, right) else EdgeId(right, left)
  }

  ghost predicate Distinct<T>(s: seq<T>) {
    forall i, j :: 0 <= i < j < |s| ==> s[i] != s[j]
  }

  ghost predicate ValidVertex(t: Topology, v: VertexId)
    requires v in t.vertices
  {
    var d := t.vertices[v];
    && 2 <= |d.edgeIds| <= 3
    && |d.adjacentVertexIds| == |d.edgeIds|
    && 1 <= |d.tileIds| <= 3
    && Distinct(d.adjacentVertexIds) && Distinct(d.edgeIds) && Distinct(d.tileIds)
    && (forall w :: w in d.adjacentVertexIds ==>
                      w in t.vertices && v in t.vertices[w].adjacentVertexIds
                      && CreateEdgeId(v, w) in d.edgeIds)
    && (forall e :: e in d.edgeIds ==>
                      e in t.edges && (t.edges[e].a == v || t.edges[e].b == v))
    && (forall tile :: tile in d.tileIds ==> tile in t.tiles && v in t.tiles[tile].vertexIds)
  }

  ghost predicate ValidEdge(t: Topology, e: EdgeId)
    requires e in t.edges
  {
    var d := t.edges[e];
    && d.a < d.b && e == EdgeId(d.a, d.b)
    && d.a in t.vertices && d.b in t.vertices
    && e in t.vertices[d.a].edgeIds && e in t.vertices[d.b].edgeIds
    && d.b in t.vertices[d.a].adjacentVertexIds && d.a in t.vertices[d.b].adjacentVertexIds
    && 1 <= |d.tileIds| <= 2 && d.coastal == (|d.tileIds| == 1)
  }

  ghost predicate ValidTile(t: Topology, tile: TileId)
    requires tile in t.tiles
  {
    && |t.tiles[tile].vertexIds| == 6
    && Distinct(t.tiles[tile].vertexIds)
    && forall v :: v in t.tiles[tile].vertexIds ==> v in t.vertices && tile in t.vertices[v].tileIds
  }

  // What the topology assertions and the topology builder establish.
  ghost predicate ValidTopology(t: Topology) {
    && |t.vertices| == 54 && |t.edges| == 72 && |t.tiles| == 19
    && (forall v {:trigger ValidVertex(t, v)} :: v in t.vertices ==> ValidVertex(t, v))
    && (forall e {:trigger ValidEdge(t, e)} :: e in t.edges ==> ValidEdge(t, e))
    && (forall tile {:trigger ValidTile(t, tile)} :: tile in t.tiles ==> ValidTile(t, tile))
    && Distinct(t.edgeOrder) && (forall e :: e in t.edgeOrder <==> e in t.edges)
    && Distinct(t.tileOrder) && (forall tile :: tile in t.tileOrder <==> tile in t.tiles)
    && (forall port :: port in t.ports ==> port.a in t.vertices && port.b in t.vertices)
  }

  lemma NonEmptyMap<K, V>(m: map<K, V>) returns (k: K)
    requires m != map[]
    ensures k in m
  {
    k :| k in m.Keys;
  }

  lemma NonEmptySet<T>(s: set<T>) returns (x: T)
    requires s != {}
    ensures x in s
  {
    x :| x in s;
  }

  datatype TileContent = TileContent(terrain: Terrain, numberToken: Option<int>)

  datatype BuildingType = Settlement | City

  datatype Building = Building(kind: BuildingType, owner: PlayerId)

  // A vertex or edge is occupied exactly when it is a key of `buildings` or `roads`.
  datatype BoardState = BoardState(
    topology: Topology,
    tileContents: map<TileId, TileContent>,
    buildings: map<VertexId, Building>,
    roads: map<EdgeId, PlayerId>,
    robberTileId: TileId)

  predicate OwnsRoad(b: BoardState, p: PlayerId, e: EdgeId) {
    e in b.roads && b.roads[e] == p
  }

  predicate OwnsBuilding(b: BoardState, p: PlayerId, v: VertexId) {
    v in b.buildings && b.buildings[v].owner == p
  }

  function RoadsOf(b: BoardState, p: PlayerId): set<EdgeId> {
    set e | e in b.roads && b.roads[e] == p
  }

  function BuildingsOf(b: BoardState, p: PlayerId, kind: BuildingType): set<VertexId> {
    set v | v in b.buildings && b.buildings[v] == Building(kind, p)
  }
}
