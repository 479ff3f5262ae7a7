// The loops inside the rules, each proved against the function the engine is modelled with.

module RuleLoops {
  import opened Board
  import opened Bags
  import opened GameModel
  import opened LongestRoad
  import opened Rules
  import opened Engine

  // Piece counts: loops over the two occupancy records, in any key order.

  function Matching<T>(keys: seq<T>, wanted: T -> bool): set<T> {
    set k | k in keys && wanted(k)
  }

  // The keys of a record, each once.
  ghost predicate Lists<K(!new), V>(keys: seq<K>, record: map<K, V>) {
    Distinct(keys) && forall k :: k in keys <==> k in record
  }

  function Holding<K, V>(record: map<K, V>, wanted: V -> bool): set<K> {
    set k | k in record && wanted(record[k])
  }

  function IsWanted<K(!new), V>(record: map<K, V>, wanted: V -> bool): K -> bool {
    k => k in record && wanted(record[k])
  }

  lemma MatchingNext<K(!new), V>(keys: seq<K>, record: map<K, V>, wanted: V -> bool, i: nat)
    requires Lists(keys, record) && i < |keys|
    ensures keys[i] in record
    ensures var own := IsWanted(record, wanted);
            |Matching(keys[..i + 1], own)| == |Matching(keys[..i], own)| + if wanted(record[keys[i]]) then 1 else 0
  {
    var own, key := IsWanted(record, wanted), keys[i];
    var before := Matching(keys[..i], own);
    assert keys[..i + 1] == keys[..i] + [key];
    assert key !in keys[..i];
    assert Matching(keys[..i + 1], own) == if own(key) then before + {key} else before;
  }

  datatype PieceCounts = PieceCounts(roads: nat, settlements: nat, cities: nat)

  function IsOwner(p: PlayerId): PlayerId -> bool {
    owner => owner == p
  }

  function IsOwn(p: PlayerId, kind: BuildingType): Building -> bool {
    building => building == Building(kind, p)
  }

  method DerivePlayerPieceCounts(b: BoardState, p: PlayerId, edges: seq<EdgeId>, vertices: seq<VertexId>)
    returns (counts: PieceCounts)
    requires Lists(edges, b.roads) && Lists(vertices, b.buildings)
    ensures counts == PieceCounts(|RoadsOf(b, p)|, |BuildingsOf(b, p, Settlement)|, |BuildingsOf(b, p, City)|)
  {
    hide Lists, Matching, IsWanted;
    var roads, settlements, cities := 0, 0, 0;
    ghost var ownRoad := IsWanted(b.roads, IsOwner(p));
    ghost var ownSettlement, ownCity := IsWanted(b.buildings, IsOwn(p, Settlement)), IsWanted(b.buildings, IsOwn(p, City));
    NothingMatches(edges, ownRoad);
    NothingMatches(vertices, ownSettlement);
    NothingMatches(vertices, ownCity);
    for i := 0 to |edges|
      invariant roads == |Matching(edges[..i], ownRoad)|
    {
      MatchingNext(edges, b.roads, IsOwner(p), i);
      if b.roads[edges[i]] == p {
        roads := roads + 1;
      }
    }
    for i := 0 to |vertices|
      invariant settlements == |Matching(vertices[..i], ownSettlement)| && cities == |Matching(vertices[..i], ownCity)|
    {
      MatchingNext(vertices, b.buildings, IsOwn(p, Settlement), i);
      MatchingNext(vertices, b.buildings, IsOwn(p, City), i);
      var building := b.buildings[vertices[i]];
      if building.owner != p {
        continue;
      }
      if building.kind == Settlement {
        settlements := settlements + 1;
      } else {
        cities := cities + 1;
      }
    }
    AllMatch(edges, b.roads, IsOwner(p));
    AllMatch(vertices, b.buildings, IsOwn(p, Settlement));
    AllMatch(vertices, b.buildings, IsOwn(p, City));
    assert RoadsOf(b, p) == Holding(b.roads, IsOwner(p));
    assert BuildingsOf(b, p, Settlement) == Holding(b.buildings, IsOwn(p, Settlement));
    assert BuildingsOf(b, p, City) == Holding(b.buildings, IsOwn(p, City));
    counts := PieceCounts(roads, settlements, cities);
  }

  lemma NothingMatches<K>(keys: seq<K>, wanted: K -> bool)
    ensures Matching(keys[..0], wanted) == {}
  {
  }

  lemma AllMatch<K(!new), V>(keys: seq<K>, record: map<K, V>, wanted: V -> bool)
    requires Lists(keys, record)
    ensures Matching(keys[..|keys|], IsWanted(record, wanted)) == Holding(record, wanted)
  {
    assert keys[..|keys|] == keys;
  }

  // Moving cards between bags, resource by resource: Invention from the bank to a player,
  // a discard from a player to the bank.

  lemma SameBag(a: Bag, b: Bag)
    requires forall k :: 0 <= k < |RESOURCE_TYPES| ==> a.Get(RESOURCE_TYPES[k]) == b.Get(RESOURCE_TYPES[k])
    ensures a == b
  {
    assert a.Get(RESOURCE_TYPES[0]) == b.Get(RESOURCE_TYPES[0]) && a.Get(RESOURCE_TYPES[1]) == b.Get(RESOURCE_TYPES[1]);
    assert a.Get(RESOURCE_TYPES[2]) == b.Get(RESOURCE_TYPES[2]) && a.Get(RESOURCE_TYPES[3]) == b.Get(RESOURCE_TYPES[3]);
    assert a.Get(RESOURCE_TYPES[4]) == b.Get(RESOURCE_TYPES[4]);
  }

  // The first i resources come from one bag and the others from another.
  ghost predicate Mixed(bag: Bag, i: nat, done: Bag, rest: Bag) {
    forall k :: 0 <= k < |RESOURCE_TYPES| ==>
      bag.Get(RESOURCE_TYPES[k]) == (if k < i then done else rest).Get(RESOURCE_TYPES[k])
  }

  lemma MixedNext(bag: Bag, i: nat, done: Bag, rest: Bag)
    requires i < |RESOURCE_TYPES| && Mixed(bag, i, done, rest)
    ensures bag.Get(RESOURCE_TYPES[i]) == rest.Get(RESOURCE_TYPES[i])
    ensures Mixed(bag.Set(RESOURCE_TYPES[i], done.Get(RESOURCE_TYPES[i])), i + 1, done, rest)
  {
    forall k | 0 <= k < |RESOURCE_TYPES| && k != i ensures RESOURCE_TYPES[k] != RESOURCE_TYPES[i] {
    }
  }

  lemma MixedEnds(bag: Bag, done: Bag, rest: Bag)
    ensures Mixed(rest, 0, done, rest)
    ensures Mixed(bag, |RESOURCE_TYPES|, done, rest) ==> bag == done
  {
    if Mixed(bag, |RESOURCE_TYPES|, done, rest) {
      SameBag(bag, done);
    }
  }

  method TransferBetween(giver: Bag, taker: Bag, moved: Bag) returns (nextGiver: Bag, nextTaker: Bag)
    ensures nextGiver == giver.Minus(moved) && nextTaker == taker.Plus(moved)
  {
    hide Mixed;
    ghost var less, more := giver.Minus(moved), taker.Plus(moved);
    nextGiver, nextTaker := giver, taker;
    MixedEnds(giver, less, giver);
    MixedEnds(taker, more, taker);
    for i := 0 to |RESOURCE_TYPES|
      invariant Mixed(nextGiver, i, less, giver) && Mixed(nextTaker, i, more, taker)
    {
      MixedNext(nextGiver, i, less, giver);
      MixedNext(nextTaker, i, more, taker);
      var resource := RESOURCE_TYPES[i];
      nextGiver := nextGiver.Set(resource, nextGiver.Get(resource) - moved.Get(resource));
      nextTaker := nextTaker.Set(resource, nextTaker.Get(resource) + moved.Get(resource));
    }
    MixedEnds(nextGiver, less, giver);
    MixedEnds(nextTaker, more, taker);
  }

  // A domestic trade; None when the source throws. Both sides are checked as they are paid,
  // and because the bundles do not overlap that is the same as checking them first.
  method ExchangeDomesticTradeBundles(initiator: Bag, counterparty: Bag, offer: TradeOffer) returns (result: Option<(Bag, Bag)>)
    ensures var fair := initiator.Complete() && counterparty.Complete() && ValidBundles(offer)
                        && !Overlaps(offer.initiatorGives, offer.counterpartyGives)
                        && initiator.Covers(offer.initiatorGives) && counterparty.Covers(offer.counterpartyGives);
            result == if fair then Some((initiator.Minus(offer.initiatorGives).Plus(offer.counterpartyGives),
                                         counterparty.Minus(offer.counterpartyGives).Plus(offer.initiatorGives)))
                      else None
  {
    hide Mixed, ValidBundles, Overlaps, CoversFirst, Bag.Complete, Bag.Covers, Bag.Plus, Bag.Minus, Bag.Get, Bag.Set;
    if !initiator.Complete() || !counterparty.Complete() {
      return None;
    }
    if !ValidBundles(offer) || Overlaps(offer.initiatorGives, offer.counterpartyGives) {
      return None;
    }
    ghost var first := initiator.Minus(offer.initiatorGives).Plus(offer.counterpartyGives);
    ghost var second := counterparty.Minus(offer.counterpartyGives).Plus(offer.initiatorGives);
    var nextInitiator, nextCounterparty := initiator, counterparty;
    MixedEnds(initiator, first, initiator);
    MixedEnds(counterparty, second, counterparty);
    NothingToCover(initiator, offer.initiatorGives);
    NothingToCover(counterparty, offer.counterpartyGives);
    for i := 0 to |RESOURCE_TYPES|
      invariant Mixed(nextInitiator, i, first, initiator) && Mixed(nextCounterparty, i, second, counterparty)
      invariant CoversFirst(initiator, offer.initiatorGives, i) && CoversFirst(counterparty, offer.counterpartyGives, i)
    {
      MixedNext(nextInitiator, i, first, initiator);
      MixedNext(nextCounterparty, i, second, counterparty);
      ExchangedAt(initiator, offer.initiatorGives, offer.counterpartyGives, i);
      ExchangedAt(counterparty, offer.counterpartyGives, offer.initiatorGives, i);
      var resource := RESOURCE_TYPES[i];
      if || nextInitiator.Get(resource) < offer.initiatorGives.Get(resource)
         || nextCounterparty.Get(resource) < offer.counterpartyGives.Get(resource)
      {
        return None;
      }
      nextInitiator := nextInitiator.Set(resource,
        nextInitiator.Get(resource) - offer.initiatorGives.Get(resource) + offer.counterpartyGives.Get(resource));
      nextCounterparty := nextCounterparty.Set(resource,
        nextCounterparty.Get(resource) - offer.counterpartyGives.Get(resource) + offer.initiatorGives.Get(resource));
    }
    MixedEnds(nextInitiator, first, initiator);
    MixedEnds(nextCounterparty, second, counterparty);
    CoversAll(initiator, offer.initiatorGives);
    CoversAll(counterparty, offer.counterpartyGives);
    result := Some((nextInitiator, nextCounterparty));
  }

  lemma ExchangedAt(hand: Bag, gives: Bag, gets: Bag, i: nat)
    requires i < |RESOURCE_TYPES|
    ensures var r := RESOURCE_TYPES[i];
            && hand.Minus(gives).Plus(gets).Get(r) == hand.Get(r) - gives.Get(r) + gets.Get(r)
            && (hand.Covers(gives) ==> hand.Get(r) >= gives.Get(r))
            && (CoversFirst(hand, gives, i) && hand.Get(r) >= gives.Get(r) ==> CoversFirst(hand, gives, i + 1))
  {
  }

  ghost predicate CoversFirst(hand: Bag, cost: Bag, n: nat) {
    forall k :: 0 <= k < n && k < |RESOURCE_TYPES| ==> hand.Get(RESOURCE_TYPES[k]) >= cost.Get(RESOURCE_TYPES[k])
  }

  lemma NothingToCover(hand: Bag, cost: Bag)
    ensures CoversFirst(hand, cost, 0)
  {
  }

  lemma CoversAll(hand: Bag, cost: Bag)
    requires CoversFirst(hand, cost, |RESOURCE_TYPES|)
    ensures hand.Covers(cost)
  {
    assert hand.Get(RESOURCE_TYPES[0]) >= cost.Get(RESOURCE_TYPES[0]) && hand.Get(RESOURCE_TYPES[1]) >= cost.Get(RESOURCE_TYPES[1]);
    assert hand.Get(RESOURCE_TYPES[2]) >= cost.Get(RESOURCE_TYPES[2]) && hand.Get(RESOURCE_TYPES[3]) >= cost.Get(RESOURCE_TYPES[3]);
    assert hand.Get(RESOURCE_TYPES[4]) >= cost.Get(RESOURCE_TYPES[4]);
  }

  // Monopoly: every other hand in the player order is emptied of the resource.

  function Emptied(player: PlayerState, resource: Resource): PlayerState {
    player.(resources := player.resources.Set(resource, 0))
  }

  // The players in `done` have given up the resource, the others are as before.
  ghost predicate GaveUp(before: map<PlayerId, PlayerState>, after: map<PlayerId, PlayerState>, done: seq<PlayerId>,
                         actor: PlayerId, resource: Resource) {
    && after.Keys == before.Keys
    && forall p :: p in before ==> after[p] == if p != actor && p in done then Emptied(before[p], resource) else before[p]
  }

  lemma GiveUpNext(before: map<PlayerId, PlayerState>, after: map<PlayerId, PlayerState>, order: seq<PlayerId>, i: nat,
                   actor: PlayerId, resource: Resource)
    requires i < |order| && order[i] in before && GaveUp(before, after, order[..i], actor, resource)
    ensures GaveUp(before, if order[i] == actor then after else after[order[i] := Emptied(before[order[i]], resource)],
                   order[..i + 1], actor, resource)
  {
    hide Emptied;
    assert order[..i + 1] == order[..i] + [order[i]];
  }

  lemma HeldUnfold(order: seq<PlayerId>, hands: map<PlayerId, Bag>, actor: PlayerId, r: Resource, i: nat)
    requires (forall p :: p in order ==> p in hands) && i < |order|
    ensures order[i] in hands && forall p :: p in order[i + 1..] ==> p in hands
    ensures HeldByOthers(order[i..], hands, actor, r)
         == (if order[i] == actor then 0 else hands[order[i]].Get(r)) + HeldByOthers(order[i + 1..], hands, actor, r)
  {
    var p := order[i];
    assert p in order && order[i..][1..] == order[i + 1..];
  }

  method TransferMonopolyResource(s: GameState, actor: PlayerId, resource: Resource)
    returns (players: map<PlayerId, PlayerState>, transferred: int)
    requires actor in s.players
    requires forall p :: p in s.playerOrder ==> p in s.players
    ensures players == MonopolyPlayers(s, actor, resource)
    ensures transferred == HeldByOthers(s.playerOrder, HandsOf(s.players), actor, resource)
  {
    hide HeldByOthers, GaveUp, MonopolyPlayers, Bag.Set, Bag.Get;
    var order := s.playerOrder;
    players, transferred := s.players, 0;
    NobodyGaveUp(s.players, order, actor, resource);
    assert order[0..] == order;
    for i := 0 to |order|
      invariant transferred + HeldByOthers(order[i..], HandsOf(s.players), actor, resource)
             == HeldByOthers(order, HandsOf(s.players), actor, resource)
      invariant GaveUp(s.players, players, order[..i], actor, resource)
    {
      HeldUnfold(order, HandsOf(s.players), actor, resource, i);
      GiveUpNext(s.players, players, order, i, actor, resource);
      if order[i] == actor {
        continue;
      }
      transferred := transferred + s.players[order[i]].resources.Get(resource);
      players := players[order[i] := Emptied(s.players[order[i]], resource)];
    }
    NothingLeft(order, HandsOf(s.players), actor, resource);
    MonopolyIs(s, players, actor, resource);
    var hand := s.players[actor].resources;
    players := players[actor := s.players[actor].(resources := hand.Set(resource, hand.Get(resource) + transferred))];
  }

  lemma NobodyGaveUp(before: map<PlayerId, PlayerState>, order: seq<PlayerId>, actor: PlayerId, resource: Resource)
    ensures GaveUp(before, before, order[..0], actor, resource)
  {
  }

  lemma NothingLeft(order: seq<PlayerId>, hands: map<PlayerId, Bag>, actor: PlayerId, r: Resource)
    ensures HeldByOthers(order[|order|..], hands, actor, r) == 0
  {
  }

  lemma MonopolyIs(s: GameState, after: map<PlayerId, PlayerState>, actor: PlayerId, r: Resource)
    requires actor in s.players && forall p :: p in s.playerOrder ==> p in s.players
    requires GaveUp(s.players, after, s.playerOrder[..|s.playerOrder|], actor, r)
    ensures var hand := s.players[actor].resources;
            var held := HeldByOthers(s.playerOrder, HandsOf(s.players), actor, r);
            after[actor := s.players[actor].(resources := hand.Set(r, hand.Get(r) + held))] == MonopolyPlayers(s, actor, r)
  {
    hide HeldByOthers, Bag.Set, Bag.Get;
    assert s.playerOrder[..|s.playerOrder|] == s.playerOrder;
  }

  // What a seven asks of each player.

  function RequirementsOf(players: map<PlayerId, PlayerState>, some: seq<PlayerId>): map<PlayerId, int> {
    map p | p in some && p in players && players[p].resources.Total() > 7 :: players[p].resources.Total() / 2
  }

  lemma RequirementsNext(players: map<PlayerId, PlayerState>, order: seq<PlayerId>, i: nat)
    requires i < |order| && forall p :: p in order ==> p in players
    ensures RequirementsOf(players, order[..0]) == map[]
    ensures order[i] in players
    ensures var p, before := order[i], RequirementsOf(players, order[..i]);
            var count := players[p].resources.Total();
            RequirementsOf(players, order[..i + 1]) == if count > 7 then before[p := count / 2] else before
  {
    var p := order[i];
    assert p in order && order[..i + 1] == order[..i] + [p];
  }

  lemma RequirementsAre(s: GameState)
    ensures RequirementsOf(s.players, s.playerOrder[..0]) == map[]
    ensures RequirementsOf(s.players, s.playerOrder[..|s.playerOrder|]) == DiscardRequirements(s)
  {
    assert s.playerOrder[..|s.playerOrder|] == s.playerOrder;
  }

  method RequiredDiscards(s: GameState) returns (required: map<PlayerId, int>)
    requires forall p :: p in s.playerOrder ==> p in s.players
    ensures required == DiscardRequirements(s)
  {
    hide RequirementsOf, DiscardRequirements;
    RequirementsAre(s);
    required := map[];
    for i := 0 to |s.playerOrder|
      invariant required == RequirementsOf(s.players, s.playerOrder[..i])
    {
      RequirementsNext(s.players, s.playerOrder, i);
      var p := s.playerOrder[i];
      var count := s.players[p].resources.Total();
      if count > 7 {
        required := required[p := count / 2];
      }
    }
  }

  // The owners beside a tile, and among them the targets in player order.

  ghost predicate TouchesOneOf(b: BoardState, vertexIds: seq<VertexId>, p: PlayerId) {
    exists k :: 0 <= k < |vertexIds| && OwnsBuilding(b, p, vertexIds[k])
  }

  lemma TouchesNext(b: BoardState, vertexIds: seq<VertexId>, i: nat, p: PlayerId)
    requires i < |vertexIds|
    ensures TouchesOneOf(b, vertexIds[..i + 1], p) <==> TouchesOneOf(b, vertexIds[..i], p) || OwnsBuilding(b, p, vertexIds[i])
  {
    hide OwnsBuilding;
    var before, after := vertexIds[..i], vertexIds[..i + 1];
    assert after == before + [vertexIds[i]];
    if TouchesOneOf(b, before, p) {
      var k :| 0 <= k < |before| && OwnsBuilding(b, p, before[k]);
      assert after[k] == before[k];
    }
    if OwnsBuilding(b, p, vertexIds[i]) {
      assert after[i] == vertexIds[i];
    }
  }

  lemma TouchesIs(b: BoardState, tile: TileId, p: PlayerId)
    requires tile in b.topology.tiles
    ensures var vertexIds := b.topology.tiles[tile].vertexIds;
            (TouchesOneOf(b, vertexIds[..|vertexIds|], p) <==> TileTouches(b, tile, p)) && !TouchesOneOf(b, vertexIds[..0], p)
  {
    hide OwnsBuilding;
    var vertexIds := b.topology.tiles[tile].vertexIds;
    assert vertexIds[..|vertexIds|] == vertexIds;
    if TileTouches(b, tile, p) {
      var v :| v in vertexIds && OwnsBuilding(b, p, v);
      var k :| 0 <= k < |vertexIds| && vertexIds[k] == v;
    }
  }

  method AdjacentOwners(b: BoardState, tile: TileId) returns (owners: set<PlayerId>)
    requires tile in b.topology.tiles
    ensures forall p :: p in owners <==> TileTouches(b, tile, p)
  {
    hide TouchesOneOf, TileTouches;
    var vertexIds := b.topology.tiles[tile].vertexIds;
    forall p ensures (TouchesOneOf(b, vertexIds[..|vertexIds|], p) <==> TileTouches(b, tile, p)) && !TouchesOneOf(b, vertexIds[..0], p) {
      TouchesIs(b, tile, p);
    }
    owners := {};
    for i := 0 to |vertexIds|
      invariant forall p :: p in owners <==> TouchesOneOf(b, vertexIds[..i], p)
    {
      forall p ensures TouchesOneOf(b, vertexIds[..i + 1], p) <==> TouchesOneOf(b, vertexIds[..i], p) || OwnsBuilding(b, p, vertexIds[i]) {
        TouchesNext(b, vertexIds, i, p);
      }
      if vertexIds[i] in b.buildings {
        owners := owners + {b.buildings[vertexIds[i]].owner};
      }
    }
  }

  lemma TargetsUnfold(b: BoardState, players: map<PlayerId, PlayerState>, order: seq<PlayerId>, tile: TileId, actor: PlayerId, i: nat)
    requires tile in b.topology.tiles && i < |order| && forall p :: p in order ==> p in players
    ensures order[i] in players
    ensures (forall p :: p in order[i..] ==> p in players) && forall p :: p in order[i + 1..] ==> p in players
    ensures var p := order[i];
            EligibleTargets(b, players, order[i..], tile, actor)
            == (if p != actor && TileTouches(b, tile, p) && players[p].resources.Total() > 0 then [p] else [])
               + EligibleTargets(b, players, order[i + 1..], tile, actor)
  {
    hide TileTouches;
    var p := order[i];
    assert p in order && order[i..][1..] == order[i + 1..];
  }

  method DeriveEligibleRobberTargets(b: BoardState, players: map<PlayerId, PlayerState>, order: seq<PlayerId>, tile: TileId, actor: PlayerId)
    returns (targets: seq<PlayerId>)
    requires tile in b.topology.tiles && forall p :: p in order ==> p in players
    ensures targets == EligibleTargets(b, players, order, tile, actor)
  {
    hide TileTouches, EligibleTargets;
    var adjacentOwners := AdjacentOwners(b, tile);
    targets := [];
    assert order[0..] == order;
    for i := 0 to |order|
      invariant targets + EligibleTargets(b, players, order[i..], tile, actor) == EligibleTargets(b, players, order, tile, actor)
    {
      TargetsUnfold(b, players, order, tile, actor, i);
      if order[i] != actor && order[i] in adjacentOwners && players[order[i]].resources.Total() > 0 {
        targets := targets + [order[i]];
      }
    }
    NoTargets(b, players, order, tile, actor);
  }

  lemma NoTargets(b: BoardState, players: map<PlayerId, PlayerState>, order: seq<PlayerId>, tile: TileId, actor: PlayerId)
    requires tile in b.topology.tiles
    ensures EligibleTargets(b, players, order[|order|..], tile, actor) == []
  {
  }

  // How many Victory Point cards have a status.
  function PointCards(cards: seq<OwnedCard>, status: CardStatus): nat {
    if cards == [] then 0
    else (if cards[0].kind == VictoryPoint && cards[0].status == status then 1 else 0) + PointCards(cards[1..], status)
  }

  // Revealed and hidden Victory Point cards together make up the score's card points.
  lemma {:induction false} PointCardsScore(cards: seq<OwnedCard>)
    requires forall i :: 0 <= i < |cards| && cards[i].kind == VictoryPoint ==> cards[i].status != Played
    ensures PointCards(cards, Revealed) + PointCards(cards, InHand) == CardPoints(cards)
  {
    if cards != [] {
      PointCardsScore(cards[1..]);
    }
  }

  // The points on Victory Point cards, revealed and hidden; None when the source throws.
  method CountCardPoints(cards: seq<OwnedCard>) returns (points: Option<(nat, nat)>)
    ensures points.None? <==> exists i :: 0 <= i < |cards| && cards[i].kind == VictoryPoint && cards[i].status == Played
    ensures points.Some? ==> points.value == (PointCards(cards, Revealed), PointCards(cards, InHand))
    ensures points.Some? ==> points.value.0 + points.value.1 == CardPoints(cards)
  {
    var revealed, hidden := 0, 0;
    assert cards[0..] == cards;
    for i := 0 to |cards|
      invariant forall k :: 0 <= k < i && cards[k].kind == VictoryPoint ==> cards[k].status != Played
      invariant revealed + PointCards(cards[i..], Revealed) == PointCards(cards, Revealed)
      invariant hidden + PointCards(cards[i..], InHand) == PointCards(cards, InHand)
    {
      assert cards[i..][1..] == cards[i + 1..];
      if cards[i].kind != VictoryPoint {
        continue;
      }
      if cards[i].status == Played {
        return None;
      }
      if cards[i].status == Revealed {
        revealed := revealed + 1;
      }
      if cards[i].status == InHand {
        hidden := hidden + 1;
      }
    }
    PointCardsScore(cards);
    points := Some((revealed, hidden));
  }
}
