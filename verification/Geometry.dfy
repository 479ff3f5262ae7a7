// Placing a piece keeps the distance rule, the anchoring of roads and the piece limits.

module Geometry {
  import opened Board
  import opened GameModel
  import opened LongestRoad
  import opened Rules
  import opened Assertions
  import opened Invariants

  lemma NotItsOwnNeighbour(t: Topology, v: VertexId)
    requires ValidTopology(t) && v in t.vertices
    ensures v !in t.vertices[v].adjacentVertexIds
  {
    assert ValidVertex(t, v);
    forall w | w in t.vertices[v].adjacentVertexIds ensures w != v {
      assert CreateEdgeId(v, w) in t.vertices[v].edgeIds;
      assert ValidEdge(t, CreateEdgeId(v, w));
    }
  }

  lemma NeighboursAreMutual(t: Topology, v: VertexId, w: VertexId)
    requires ValidTopology(t) && v in t.vertices && w in t.vertices[v].adjacentVertexIds
    ensures w in t.vertices && v in t.vertices[w].adjacentVertexIds
  {
    assert ValidVertex(t, v);
  }

  // Anchoring only ever grows with more own roads and buildings.
  lemma {:induction false} AnchoredGrows(b: BoardState, b': BoardState, p: PlayerId, e: EdgeId, k: nat)
    requires b'.topology == b.topology
    requires RoadsOf(b, p) <= RoadsOf(b', p)
    requires forall v :: OwnsBuilding(b, p, v) ==> OwnsBuilding(b', p, v)
    requires Anchored(b, p, e, k)
    ensures Anchored(b', p, e, k)
    decreases k
  {
    assert e in RoadsOf(b, p);
    if !TouchesOwnBuilding(b, p, e) {
      var f :| Anchored(b, p, f, k - 1) && Meet(b.topology, e, f);
      AnchoredGrows(b, b', p, f, k - 1);
    }
  }

  lemma AllAnchoredGrows(b: BoardState, b': BoardState, e: EdgeId)
    requires b'.topology == b.topology && AllAnchored(b)
    requires forall p :: RoadsOf(b, p) <= RoadsOf(b', p)
    requires forall p, v :: OwnsBuilding(b, p, v) ==> OwnsBuilding(b', p, v)
    requires e in b.roads && e in b'.roads && b'.roads[e] == b.roads[e]
    ensures IsAnchored(b', b'.roads[e], e)
  {
    assert IsAnchored(b, b.roads[e], e);
    var k: nat :| Anchored(b, b.roads[e], e, k);
    AnchoredGrows(b, b', b.roads[e], e, k);
  }

  // Settlements.

  function Settled(b: BoardState, p: PlayerId, v: VertexId): BoardState {
    b.(buildings := b.buildings[v := Building(Settlement, p)])
  }

  lemma SettledOwn(b: BoardState, p: PlayerId, v: VertexId)
    requires v !in b.buildings
    ensures |BuildingsOf(Settled(b, p, v), p, Settlement)| == |BuildingsOf(b, p, Settlement)| + 1
  {
    assert BuildingsOf(Settled(b, p, v), p, Settlement) == BuildingsOf(b, p, Settlement) + {v};
  }

  lemma SettledTotal(b: BoardState, p: PlayerId, v: VertexId)
    requires v !in b.buildings
    ensures |Settled(b, p, v).buildings| == |b.buildings| + 1
  {
    var b' := Settled(b, p, v);
    assert b'.buildings.Keys == b.buildings.Keys + {v};
    assert |b'.buildings| == |b'.buildings.Keys| && |b.buildings| == |b.buildings.Keys|;
  }

  lemma SettledPieces(b: BoardState, p: PlayerId, v: VertexId, q: PlayerId)
    requires v !in b.buildings
    ensures RoadsOf(Settled(b, p, v), q) == RoadsOf(b, q)
    ensures BuildingsOf(Settled(b, p, v), q, City) == BuildingsOf(b, q, City)
    ensures q != p ==> BuildingsOf(Settled(b, p, v), q, Settlement) == BuildingsOf(b, q, Settlement)
    ensures |BuildingsOf(Settled(b, p, v), p, Settlement)| == |BuildingsOf(b, p, Settlement)| + 1
  {
    SettledOwn(b, p, v);
  }

  lemma SettledSpaced(b: BoardState, p: PlayerId, v: VertexId)
    requires ValidTopology(b.topology) && Spaced(b)
    requires v in b.topology.vertices && v !in b.buildings && !HasOccupiedNeighbour(b, v)
    ensures Spaced(Settled(b, p, v))
  {
    var b' := Settled(b, p, v);
    NotItsOwnNeighbour(b.topology, v);
    forall u | u in b'.buildings ensures u in b.topology.vertices && !HasOccupiedNeighbour(b', u) {
      if u != v {
        assert u in b.buildings;
        if v in b.topology.vertices[u].adjacentVertexIds {
          NeighboursAreMutual(b.topology, u, v);
        }
      }
    }
  }

  lemma SettlementKeepsBoard(b: BoardState, players: set<PlayerId>, p: PlayerId, v: VertexId)
    requires BoardInv(b, players) && p in players
    requires v in b.topology.vertices && v !in b.buildings && !HasOccupiedNeighbour(b, v)
    requires |BuildingsOf(b, p, Settlement)| < SETTLEMENT_LIMIT
    ensures BoardInv(Settled(b, p, v), players)
  {
    hide ValidTopology, HasOccupiedNeighbour;
    var b' := Settled(b, p, v);
    SettledSpaced(b, p, v);
    forall q | q in players
      ensures |RoadsOf(b', q)| <= ROAD_LIMIT && |BuildingsOf(b', q, Settlement)| <= SETTLEMENT_LIMIT
      ensures |BuildingsOf(b', q, City)| <= CITY_LIMIT
    {
      SettledPieces(b, p, v, q);
    }
    forall e | e in b'.roads ensures IsAnchored(b', b'.roads[e], e) {
      AllAnchoredGrows(b, b', e);
    }
  }

  // Cities.

  function Upgraded(b: BoardState, p: PlayerId, v: VertexId): BoardState {
    b.(buildings := b.buildings[v := Building(City, p)])
  }

  lemma UpgradedPieces(b: BoardState, p: PlayerId, v: VertexId, q: PlayerId)
    requires v in b.buildings && b.buildings[v] == Building(Settlement, p)
    ensures RoadsOf(Upgraded(b, p, v), q) == RoadsOf(b, q)
    ensures q != p ==> BuildingsOf(Upgraded(b, p, v), q, City) == BuildingsOf(b, q, City)
    ensures q != p ==> BuildingsOf(Upgraded(b, p, v), q, Settlement) == BuildingsOf(b, q, Settlement)
    ensures |BuildingsOf(Upgraded(b, p, v), p, Settlement)| == |BuildingsOf(b, p, Settlement)| - 1
    ensures |BuildingsOf(Upgraded(b, p, v), p, City)| == |BuildingsOf(b, p, City)| + 1
  {
    var b' := Upgraded(b, p, v);
    assert RoadsOf(b', q) == RoadsOf(b, q);
    assert q != p ==> BuildingsOf(b', q, City) == BuildingsOf(b, q, City);
    assert q != p ==> BuildingsOf(b', q, Settlement) == BuildingsOf(b, q, Settlement);
    assert BuildingsOf(b, p, Settlement) == BuildingsOf(b', p, Settlement) + {v};
    assert BuildingsOf(b', p, City) == BuildingsOf(b, p, City) + {v};
  }

  lemma UpgradeKeepsBoard(b: BoardState, players: set<PlayerId>, p: PlayerId, v: VertexId)
    requires BoardInv(b, players) && p in players
    requires v in b.buildings && b.buildings[v] == Building(Settlement, p)
    requires |BuildingsOf(b, p, City)| < CITY_LIMIT
    ensures BoardInv(Upgraded(b, p, v), players)
  {
    hide ValidTopology;
    var b' := Upgraded(b, p, v);
    assert b'.buildings.Keys == b.buildings.Keys;
    forall u | u in b'.buildings ensures u in b.topology.vertices && !HasOccupiedNeighbour(b', u) {
      assert !HasOccupiedNeighbour(b, u);
    }
    forall q | q in players
      ensures |RoadsOf(b', q)| <= ROAD_LIMIT && |BuildingsOf(b', q, Settlement)| <= SETTLEMENT_LIMIT
      ensures |BuildingsOf(b', q, City)| <= CITY_LIMIT
    {
      UpgradedPieces(b, p, v, q);
    }
    hide HasOccupiedNeighbour;
    forall e | e in b'.roads ensures IsAnchored(b', b'.roads[e], e) {
      AllAnchoredGrows(b, b', e);
    }
  }

  // Roads.

  function Paved(b: BoardState, p: PlayerId, e: EdgeId): BoardState {
    b.(roads := b.roads[e := p])
  }

  lemma PavedOwn(b: BoardState, p: PlayerId, e: EdgeId)
    requires e !in b.roads
    ensures |RoadsOf(Paved(b, p, e), p)| == |RoadsOf(b, p)| + 1
  {
    assert RoadsOf(Paved(b, p, e), p) == RoadsOf(b, p) + {e};
  }

  lemma PavedPieces(b: BoardState, p: PlayerId, e: EdgeId, q: PlayerId)
    requires e !in b.roads
    ensures BuildingsOf(Paved(b, p, e), q, Settlement) == BuildingsOf(b, q, Settlement)
    ensures BuildingsOf(Paved(b, p, e), q, City) == BuildingsOf(b, q, City)
    ensures q != p ==> RoadsOf(Paved(b, p, e), q) == RoadsOf(b, q)
    ensures |RoadsOf(Paved(b, p, e), p)| == |RoadsOf(b, p)| + 1
    ensures RoadsOf(b, q) <= RoadsOf(Paved(b, p, e), q)
  {
    PavedOwn(b, p, e);
  }

  // A connected edge leads to one of the builder's buildings.
  lemma ConnectedIsAnchored(b: BoardState, p: PlayerId, e: EdgeId, v: VertexId)
    requires ValidTopology(b.topology) && AllAnchored(b)
    requires e in b.topology.edges && e !in b.roads
    requires v in b.topology.vertices && (b.topology.edges[e].a == v || b.topology.edges[e].b == v)
    requires ConnectsAt(b, p, v, e)
    ensures IsAnchored(Paved(b, p, e), p, e)
  {
    var b' := Paved(b, p, e);
    if OwnsBuilding(b, p, v) {
      assert Anchored(b', p, e, 0);
    } else {
      var f :| f in b.topology.vertices[v].edgeIds && f != e && OwnsRoad(b, p, f);
      assert ValidVertex(b.topology, v);
      assert IsAnchored(b, p, f);
      var k: nat :| Anchored(b, p, f, k);
      PavedPieces(b, p, e, p);
      AnchoredGrows(b, b', p, f, k);
      assert Meet(b'.topology, e, f);
      assert Anchored(b', p, e, k + 1);
    }
  }

  lemma PavedKeepsAnchors(b: BoardState, p: PlayerId, e: EdgeId)
    requires AllAnchored(b) && e !in b.roads && IsAnchored(Paved(b, p, e), p, e)
    ensures AllAnchored(Paved(b, p, e))
  {
    var b' := Paved(b, p, e);
    forall f | f in b'.roads ensures IsAnchored(b', b'.roads[f], f) {
      if f != e {
        forall q ensures RoadsOf(b, q) <= RoadsOf(b', q) {
          PavedPieces(b, p, e, q);
        }
        AllAnchoredGrows(b, b', f);
      }
    }
  }

  lemma RoadKeepsBoard(b: BoardState, players: set<PlayerId>, p: PlayerId, e: EdgeId)
    requires BoardInv(b, players) && p in players
    requires e in b.topology.edges && e !in b.roads
    requires |RoadsOf(b, p)| < ROAD_LIMIT
    requires IsAnchored(Paved(b, p, e), p, e)
    ensures BoardInv(Paved(b, p, e), players)
  {
    hide ValidTopology, IsAnchored;
    var b' := Paved(b, p, e);
    PavedKeepsAnchors(b, p, e);
    forall u | u in b'.buildings ensures u in b.topology.vertices && !HasOccupiedNeighbour(b', u) {
      assert !HasOccupiedNeighbour(b, u);
    }
    forall q | q in players
      ensures |RoadsOf(b', q)| <= ROAD_LIMIT && |BuildingsOf(b', q, Settlement)| <= SETTLEMENT_LIMIT
      ensures |BuildingsOf(b', q, City)| <= CITY_LIMIT
    {
      PavedPieces(b, p, e, q);
    }
  }

  lemma EdgesAreKnown(b: BoardState)
    requires ValidTopology(b.topology)
    ensures KnownEdges(b)
  {
    forall e | e in b.topology.edges ensures KnownEnds(b, e) {
      assert ValidEdge(b.topology, e);
    }
  }

  // A legal road placement keeps the board invariant.
  lemma LegalRoadKeepsBoard(b: BoardState, players: set<PlayerId>, p: PlayerId, e: EdgeId)
    requires BoardInv(b, players) && p in players && KnownEdges(b)
    requires ValidateFreeRoad(b, p, e).None?
    ensures e in b.topology.edges && e !in b.roads
    ensures BoardInv(Paved(b, p, e), players)
  {
    var d := b.topology.edges[e];
    assert KnownEnds(b, e);
    if ConnectsAt(b, p, d.a, e) {
      ConnectedIsAnchored(b, p, e, d.a);
    } else {
      ConnectedIsAnchored(b, p, e, d.b);
    }
    hide BoardInv, IsAnchored, ConnectsAt, BlockedAt;
    RoadKeepsBoard(b, players, p, e);
  }

  // Moving the robber keeps the board invariant.
  lemma RobberKeepsBoard(b: BoardState, players: set<PlayerId>, tile: TileId)
    requires BoardInv(b, players) && tile in b.topology.tiles
    ensures BoardInv(b.(robberTileId := tile), players)
  {
    hide ValidTopology;
    var b' := b.(robberTileId := tile);
    forall q ensures RoadsOf(b', q) == RoadsOf(b, q)
    {
    }
    forall q | q in players
      ensures |RoadsOf(b', q)| <= ROAD_LIMIT && |BuildingsOf(b', q, Settlement)| <= SETTLEMENT_LIMIT
      ensures |BuildingsOf(b', q, City)| <= CITY_LIMIT
    {
      assert BuildingsOf(b', q, Settlement) == BuildingsOf(b, q, Settlement);
      assert BuildingsOf(b', q, City) == BuildingsOf(b, q, City);
    }
    forall u | u in b'.buildings ensures u in b.topology.vertices && !HasOccupiedNeighbour(b', u) {
      assert !HasOccupiedNeighbour(b, u);
    }
    forall e | e in b'.roads ensures IsAnchored(b', b'.roads[e], e) {
      AllAnchoredGrows(b, b', e);
    }
  }
}
