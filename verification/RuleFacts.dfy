// The rulebook's terms, said again of edges, corners, single resources and single points.

module RuleFacts {
  import opened Board
  import opened Bags
  import opened GameModel
  import Words
  import opened SeededRandom
  import opened Rules
  import opened StandardBoard
  import opened Assertions
  import opened Engine
  import opened Invariants
  import opened Safety
  import opened CardFacts
  import opened Rulebook

  // Sites and roads.

  lemma EndsAreNeighbours(t: Topology, e: EdgeId)
    requires ValidTopology(t) && e in t.edges
    ensures var d := t.edges[e];
            && d.a in t.vertices && d.b in t.vertices
            && d.b in t.vertices[d.a].adjacentVertexIds && d.a in t.vertices[d.b].adjacentVertexIds
            && e in t.vertices[d.a].edgeIds && e in t.vertices[d.b].edgeIds
  {
    assert ValidEdge(t, e);
  }

  lemma NeighboursShareAnEdge(t: Topology, v: VertexId, w: VertexId) returns (e: EdgeId)
    requires ValidTopology(t) && v in t.vertices && w in t.vertices[v].adjacentVertexIds
    ensures e in t.edges && ((t.edges[e].a == v && t.edges[e].b == w) || (t.edges[e].a == w && t.edges[e].b == v))
  {
    assert ValidVertex(t, v);
    e := CreateEdgeId(v, w);
    assert e in t.vertices[v].edgeIds;
    assert ValidEdge(t, e);
  }

  // A site is open exactly if it is free and so is the other end of every edge at it.
  lemma OpenSiteIs(b: BoardState, v: VertexId)
    requires ValidTopology(b.topology)
    ensures IsOpenSite(b, v) <==>
              && v in b.topology.vertices && v !in b.buildings
              && forall e :: e in b.topology.edges ==>
                   && (b.topology.edges[e].a == v ==> b.topology.edges[e].b !in b.buildings)
                   && (b.topology.edges[e].b == v ==> b.topology.edges[e].a !in b.buildings)
  {
    hide ValidTopology;
    if v in b.topology.vertices {
      forall e | e in b.topology.edges
        ensures b.topology.edges[e].a == v ==> b.topology.edges[e].b in b.topology.vertices[v].adjacentVertexIds
        ensures b.topology.edges[e].b == v ==> b.topology.edges[e].a in b.topology.vertices[v].adjacentVertexIds
      {
        EndsAreNeighbours(b.topology, e);
      }
      if w :| w in b.topology.vertices[v].adjacentVertexIds && w in b.buildings {
        var e := NeighboursShareAnEdge(b.topology, v, w);
      }
    }
  }

  // The distance rule: no edge has buildings at both its ends.
  lemma SpacedIs(b: BoardState)
    requires ValidTopology(b.topology) && forall v :: v in b.buildings ==> v in b.topology.vertices
    ensures Spaced(b) <==> forall e :: e in b.topology.edges ==> b.topology.edges[e].a !in b.buildings || b.topology.edges[e].b !in b.buildings
  {
    hide ValidTopology;
    forall e | e in b.topology.edges
      ensures b.topology.edges[e].a in b.topology.vertices
      ensures b.topology.edges[e].b in b.topology.vertices[b.topology.edges[e].a].adjacentVertexIds
    {
      EndsAreNeighbours(b.topology, e);
    }
    if !Spaced(b) {
      var v :| v in b.buildings && HasOccupiedNeighbour(b, v);
      var w :| w in b.topology.vertices[v].adjacentVertexIds && w in b.buildings;
      var e := NeighboursShareAnEdge(b.topology, v, w);
    }
  }

  // A road leads to a vertex exactly if one of the player's edges ends there.
  lemma RoadToIs(b: BoardState, p: PlayerId, v: VertexId)
    requires ValidTopology(b.topology) && v in b.topology.vertices
    ensures HasRoadTo(b, p, v) <==>
              exists e :: e in b.roads && b.roads[e] == p && e in b.topology.edges && (b.topology.edges[e].a == v || b.topology.edges[e].b == v)
  {
    hide ValidTopology;
    if e :| e in b.topology.vertices[v].edgeIds && OwnsRoad(b, p, e) {
      EdgeEndsAt(b.topology, v, e);
    }
    if e :| e in b.roads && b.roads[e] == p && e in b.topology.edges && (b.topology.edges[e].a == v || b.topology.edges[e].b == v) {
      EndsAreNeighbours(b.topology, e);
      assert OwnsRoad(b, p, e);
    }
  }

  lemma EdgeEndsAt(t: Topology, v: VertexId, e: EdgeId)
    requires ValidTopology(t) && v in t.vertices && e in t.vertices[v].edgeIds
    ensures e in t.edges && (t.edges[e].a == v || t.edges[e].b == v)
  {
    assert ValidVertex(t, v);
  }

  // A player is beside a tile exactly if a building of theirs is at a vertex of the tile.
  lemma TouchesIs(b: BoardState, tile: TileId, p: PlayerId)
    requires ValidTopology(b.topology) && tile in b.topology.tiles
    ensures TileTouches(b, tile, p) <==>
              exists v :: v in b.buildings && b.buildings[v].owner == p && v in b.topology.vertices && tile in b.topology.vertices[v].tileIds
  {
    hide ValidTopology;
    if v :| v in b.topology.tiles[tile].vertexIds && OwnsBuilding(b, p, v) {
      CornerIsAt(b.topology, tile, v);
    }
    if v :| v in b.buildings && b.buildings[v].owner == p && v in b.topology.vertices && tile in b.topology.vertices[v].tileIds {
      VertexIsAt(b.topology, tile, v);
      assert OwnsBuilding(b, p, v);
    }
  }

  lemma CornerIsAt(t: Topology, tile: TileId, v: VertexId)
    requires ValidTopology(t) && tile in t.tiles && v in t.tiles[tile].vertexIds
    ensures v in t.vertices && tile in t.vertices[v].tileIds
  {
    assert ValidTile(t, tile);
  }

  lemma VertexIsAt(t: Topology, tile: TileId, v: VertexId)
    requires ValidTopology(t) && v in t.vertices && tile in t.vertices[v].tileIds
    ensures tile in t.tiles && v in t.tiles[tile].vertexIds
  {
    assert ValidVertex(t, v);
  }

  // Bags, resource by resource.

  lemma BagFacts(a: Bag, b: Bag, r: Resource, n: int)
    ensures a.Plus(b).Get(r) == a.Get(r) + b.Get(r) && a.Minus(b).Get(r) == a.Get(r) - b.Get(r)
    ensures a.Set(r, n).Get(r) == n && forall q :: q != r ==> a.Set(r, n).Get(q) == a.Get(q)
    ensures a.Set(r, n).Total() == a.Total() - a.Get(r) + n
    ensures a.Covers(b) <==> forall q :: a.Get(q) >= b.Get(q)
    ensures a.Complete() <==> forall q :: a.Get(q) >= 0
  {
    if forall q :: a.Get(q) >= b.Get(q) {
      assert a.Get(Lumber) >= b.Get(Lumber) && a.Get(Brick) >= b.Get(Brick) && a.Get(Wool) >= b.Get(Wool);
      assert a.Get(Grain) >= b.Get(Grain) && a.Get(Ore) >= b.Get(Ore);
    }
    if forall q :: a.Get(q) >= 0 {
      assert a.Get(Lumber) >= 0 && a.Get(Brick) >= 0 && a.Get(Wool) >= 0 && a.Get(Grain) >= 0 && a.Get(Ore) >= 0;
    }
  }

  // Both sides of a fair offer give something, neither gives less than nothing, and no resource
  // goes both ways.
  lemma FairOfferIs(offer: TradeOffer)
    ensures IsFairOffer(offer) <==>
              && (exists r :: offer.initiatorGives.Get(r) > 0) && (exists r :: offer.counterpartyGives.Get(r) > 0)
              && forall r :: OneWay(offer.initiatorGives, offer.counterpartyGives, r)
  {
    hide Bag.Get, OneWay, Bag.Total, Bag.Complete, Overlaps;
    SomethingIs(offer.initiatorGives);
    SomethingIs(offer.counterpartyGives);
    OneWayIs(offer.initiatorGives, offer.counterpartyGives);
  }

  predicate OneWay(a: Bag, b: Bag, r: Resource) {
    a.Get(r) >= 0 && b.Get(r) >= 0 && (a.Get(r) == 0 || b.Get(r) == 0)
  }

  lemma OneWayIs(a: Bag, b: Bag)
    ensures (forall r :: OneWay(a, b, r)) <==> a.Complete() && b.Complete() && !Overlaps(a, b)
  {
    if forall r :: OneWay(a, b, r) {
      assert OneWay(a, b, Lumber) && OneWay(a, b, Brick) && OneWay(a, b, Wool) && OneWay(a, b, Grain) && OneWay(a, b, Ore);
    }
  }

  lemma SomethingIs(bag: Bag)
    ensures bag.Complete() ==> (bag.Total() > 0 <==> exists r :: bag.Get(r) > 0)
  {
    if bag.Complete() && bag.Total() > 0 {
      assert bag.Get(Lumber) > 0 || bag.Get(Brick) > 0 || bag.Get(Wool) > 0 || bag.Get(Grain) > 0 || bag.Get(Ore) > 0;
    }
  }

  // The cards of the kinds that come before r in the frozen order.
  function Before(hand: Bag, r: Resource): int {
    match r
    case Lumber => 0
    case Brick => hand.lumber
    case Wool => hand.lumber + hand.brick
    case Grain => hand.lumber + hand.brick + hand.wool
    case Ore => hand.lumber + hand.brick + hand.wool + hand.grain
  }

  // A theft takes the card the random state points at: the one at the residue of the first
  // accepted word among the cards of the hand.
  lemma DrawIs(hand: Bag, random: RandomState, r: Resource, after: RandomState)
    requires ValidRandomState(random) && IsDrawable(hand) && IsDrawn(hand, random, r) && DrawLeaves(hand, random, after)
    ensures StopsAt(random, hand.Total(), after)
    ensures Before(hand, r) <= Words.Value(after.state) % hand.Total() < Before(hand, r) + hand.Get(r)
  {
    hide NextInt, StopsAt, Words.Value, ValidRandomState;
    NextIntStops(random, 0, hand.Total());
  }

  // Points.

  lemma OneMoreBuilding(b: BoardState, p: PlayerId, v: VertexId, kind: BuildingType, q: PlayerId, k: BuildingType)
    requires v !in b.buildings
    ensures |BuildingsOf(b.(buildings := b.buildings[v := Building(kind, p)]), q, k)|
         == |BuildingsOf(b, q, k)| + (if q == p && k == kind then 1 else 0)
  {
    var b' := b.(buildings := b.buildings[v := Building(kind, p)]);
    var before, after := BuildingsOf(b, q, k), BuildingsOf(b', q, k);
    assert v !in before;
    if q == p && k == kind {
      assert after == before + {v};
    } else {
      assert after == before;
    }
  }

  // A player on an empty board with no award and no card has no point; a settlement is worth one
  // to its owner and nothing to anybody else.
  lemma SettlementIsOnePoint(b: BoardState, awards: Awards, p: PlayerId, v: VertexId, q: PlayerId, cards: seq<OwnedCard>)
    requires v !in b.buildings
    ensures b.buildings == map[] && awards == Awards(None, None) ==> Points(b, awards, p, []) == 0
    ensures Points(b.(buildings := b.buildings[v := Building(Settlement, p)]), awards, q, cards)
         == Points(b, awards, q, cards) + (if q == p then 1 else 0)
  {
    hide CardPoints;
    OneMoreBuilding(b, p, v, Settlement, q, Settlement);
    OneMoreBuilding(b, p, v, Settlement, q, City);
    if b.buildings == map[] && awards == Awards(None, None) {
      assert BuildingsOf(b, p, Settlement) == {} && BuildingsOf(b, p, City) == {};
      NoCardPoints();
    }
  }

  lemma NoCardPoints()
    ensures CardPoints([]) == 0
  {
  }

  // A city is worth one more than the settlement it stands for.
  lemma UpgradeIsOnePoint(b: BoardState, awards: Awards, v: VertexId, q: PlayerId, cards: seq<OwnedCard>)
    requires v in b.buildings && b.buildings[v].kind == Settlement
    ensures Points(b.(buildings := b.buildings[v := b.buildings[v].(kind := City)]), awards, q, cards)
         == Points(b, awards, q, cards) + (if q == b.buildings[v].owner then 1 else 0)
  {
    hide CardPoints, BuildingsOf;
    var p := b.buildings[v].owner;
    var bare := b.(buildings := b.buildings - {v});
    OneMoreBuilding(bare, p, v, Settlement, q, Settlement);
    OneMoreBuilding(bare, p, v, Settlement, q, City);
    OneMoreBuilding(bare, p, v, City, q, Settlement);
    OneMoreBuilding(bare, p, v, City, q, City);
    assert bare.buildings[v := Building(Settlement, p)] == b.buildings;
    assert bare.buildings[v := Building(City, p)] == b.buildings[v := b.buildings[v].(kind := City)];
  }

  // Each award is worth two points to its holder alone.
  lemma AwardIsTwoPoints(b: BoardState, holder: PlayerId, other: Option<PlayerId>, q: PlayerId, cards: seq<OwnedCard>)
    ensures Points(b, Awards(Some(holder), other), q, cards)
         == Points(b, Awards(None, other), q, cards) + (if q == holder then 2 else 0)
    ensures Points(b, Awards(other, Some(holder)), q, cards)
         == Points(b, Awards(other, None), q, cards) + (if q == holder then 2 else 0)
  {
    hide CardPoints, BuildingsOf;
  }

  // A Victory Point card is worth a point, in hand or shown; no other card is worth any.
  lemma {:induction false} CardPointsGrow(cards: seq<OwnedCard>, card: OwnedCard)
    ensures CardPoints(cards + [card]) == CardPoints(cards) + (if card.kind == VictoryPoint && card.status != Played then 1 else 0)
  {
    if cards == [] {
      assert (cards + [card])[1..] == [];
    } else {
      CardPointsGrow(cards[1..], card);
      assert (cards + [card])[1..] == cards[1..] + [card];
    }
  }

  lemma CardIsOnePoint(b: BoardState, awards: Awards, p: PlayerId, cards: seq<OwnedCard>, card: OwnedCard)
    ensures Points(b, awards, p, cards + [card])
         == Points(b, awards, p, cards) + (if card.kind == VictoryPoint && card.status != Played then 1 else 0)
  {
    hide CardPoints;
    CardPointsGrow(cards, card);
  }

  // A winner shows every hidden point and nothing else.
  lemma RevealIs(cards: seq<OwnedCard>, k: nat)
    requires k < |cards|
    ensures var shown := RevealPoints(cards);
            && |shown| == |cards| && shown[k] == cards[k].(status := shown[k].status)
            && (shown[k].status != cards[k].status <==> cards[k].kind == VictoryPoint && cards[k].status == InHand)
            && (shown[k].status != cards[k].status ==> shown[k].status == Revealed)
  {
  }

  // Pieces and cards.

  // Every road is one piece of its owner's.
  lemma OneMoreRoad(b: BoardState, p: PlayerId, e: EdgeId, q: PlayerId)
    requires e !in b.roads
    ensures b.roads == map[] ==> RoadsOf(b, q) == {}
    ensures |RoadsOf(b.(roads := b.roads[e := p]), q)| == |RoadsOf(b, q)| + (if q == p then 1 else 0)
  {
    var before, after := RoadsOf(b, q), RoadsOf(b.(roads := b.roads[e := p]), q);
    assert e !in before;
    if q == p {
      assert after == before + {e};
    } else {
      assert after == before;
    }
  }

  function Range(low: int, high: int): (ids: set<int>)
    requires low <= high
    ensures |ids| == high - low && forall id :: id in ids <==> low <= id < high
    decreases high - low
  {
    if low == high then {} else Range(low, high - 1) + {high - 1}
  }

  function CardsOf(deck: seq<CardDefinition>, kind: CardType): set<int> {
    set id | 0 <= id < |deck| && deck[id].kind == kind
  }

  // The deck has fourteen Knights, five Victory Points and two of each other kind.
  lemma DeckIs()
    ensures |StandardDeck()| == 25
    ensures |CardsOf(StandardDeck(), Knight)| == 14 && |CardsOf(StandardDeck(), VictoryPoint)| == 5
    ensures |CardsOf(StandardDeck(), RoadBuilding)| == |CardsOf(StandardDeck(), Monopoly)| == |CardsOf(StandardDeck(), Invention)| == 2
  {
    hide CardsOf, Range, StandardDeck;
    KindIs(Knight, 0, 14);
    KindIs(VictoryPoint, 14, 19);
    KindIs(RoadBuilding, 19, 21);
    KindIs(Monopoly, 21, 23);
    KindIs(Invention, 23, 25);
  }

  lemma KindIs(kind: CardType, low: nat, high: nat)
    requires low <= high <= 25 && forall id: nat :: id < 25 ==> (StandardKind(id) == kind <==> low <= id < high)
    ensures |StandardDeck()| == 25 && |CardsOf(StandardDeck(), kind)| == high - low
  {
    hide Range;
    assert CardsOf(StandardDeck(), kind) == Range(low, high);
  }

  // Where something lies in a row.
  function Places<T(==)>(row: seq<T>, x: T): set<int> {
    set k | 0 <= k < |row| && row[k] == x
  }

  lemma RowHas<T>(row: seq<T>, x: T, low: nat, high: nat)
    requires low <= high <= |row| && forall k :: 0 <= k < |row| ==> (row[k] == x <==> low <= k < high)
    ensures |Places(row, x)| == high - low
  {
    hide Range;
    assert Places(row, x) == Range(low, high);
  }

  // The box has four general ports and one for each resource, nineteen tiles, and two tokens of
  // each number but the seven, one only of the two and of the twelve.
  lemma PortsInTheBox()
    ensures |PORT_KINDS| == 9 && |Places(PORT_KINDS, Generic)| == 4 && forall r :: |Places(PORT_KINDS, ForResource(r))| == 1
  {
    hide Places;
    RowHas(PORT_KINDS, Generic, 0, 4);
    forall r ensures |Places(PORT_KINDS, ForResource(r))| == 1 {
      var k := match r case Lumber => 4 case Brick => 5 case Wool => 6 case Grain => 7 case Ore => 8;
      RowHas(PORT_KINDS, ForResource(r), k, k + 1);
    }
  }

  lemma TilesInTheBox()
    ensures |TERRAINS| == 19 && |Places(TERRAINS, Desert)| == 1
    ensures |Places(TERRAINS, Forest)| == |Places(TERRAINS, Pasture)| == |Places(TERRAINS, Fields)| == 4
    ensures |Places(TERRAINS, Hills)| == |Places(TERRAINS, Mountains)| == 3
  {
    hide Places;
    RowHas(TERRAINS, Forest, 0, 4);
    RowHas(TERRAINS, Hills, 4, 7);
    RowHas(TERRAINS, Pasture, 7, 11);
    RowHas(TERRAINS, Fields, 11, 15);
    RowHas(TERRAINS, Mountains, 15, 18);
    RowHas(TERRAINS, Desert, 18, 19);
  }

  lemma TokensInTheBox(n: int)
    ensures |RED_TOKENS| == 4 && |NON_RED_TOKENS| == 14
    ensures |Places(RED_TOKENS, n)| == if n in {6, 8} then 2 else 0
    ensures |Places(NON_RED_TOKENS, n)| == if n in {2, 12} then 1 else if n in {3, 4, 5, 9, 10, 11} then 2 else 0
  {
    hide Places;
    RowHas(RED_TOKENS, n, if n == 6 then 0 else if n == 8 then 2 else 4, if n == 6 then 2 else 4);
    var low := match n case 2 => 0 case 3 => 1 case 4 => 3 case 5 => 5 case 9 => 7 case 10 => 9 case 11 => 11 case 12 => 13 case _ => 14;
    RowHas(NON_RED_TOKENS, n, low, if n in {2, 12} then low + 1 else if n in {3, 4, 5, 9, 10, 11} then low + 2 else 14);
  }

  // The white space that trimming removes: the WhiteSpace and LineTerminator code points of
  // section 12 of ECMA-262.
  const WHITE_SPACE: set<nat> := {
    0x09, 0x0a, 0x0b, 0x0c, 0x0d, 0x20, 0xa0, 0x1680, 0x2000, 0x2001, 0x2002, 0x2003, 0x2004, 0x2005, 0x2006, 0x2007, 0x2008,
    0x2009, 0x200a, 0x2028, 0x2029, 0x202f, 0x205f, 0x3000, 0xfeff}

  // A trade ID that trimming would leave something of.
  lemma NonBlankIs(id: TradeId)
    ensures NonBlank(id) <==> exists i :: 0 <= i < |id| && id[i] as nat !in WHITE_SPACE
  {
    forall c: char ensures IsBlank(c) <==> c as nat in WHITE_SPACE {
    }
  }
}
