// The rules as one table: when each command is allowed and what it moves. The engine is
// proved to accept exactly the allowed commands and to do exactly what the table says.

module Rulebook {
  import opened Board
  import opened Bags
  import opened GameModel
  import Words
  import opened SeededRandom
  import opened Production
  import opened Harvest
  import opened Rules
  import opened Assertions
  import opened Engine
  import opened Invariants
  import opened Geometry
  import opened SetupSafety
  import opened Victory

  // When a command is allowed.

  predicate OnTurn(s: GameState, actor: PlayerId) {
    actor == s.turn.current && s.pending.None?
  }

  predicate Holds(s: GameState, p: PlayerId, cards: Bag) {
    p in s.players && s.players[p].resources.Covers(cards)
  }

  // A free vertex with no occupied neighbour.
  predicate IsOpenSite(b: BoardState, v: VertexId) {
    v in b.topology.vertices && v !in b.buildings && !HasOccupiedNeighbour(b, v)
  }

  // At v the edge would go on from an own building, or past nobody's building from another own road.
  predicate Continues(b: BoardState, p: PlayerId, v: VertexId, e: EdgeId)
    requires v in b.topology.vertices
  {
    if v in b.buildings then b.buildings[v].owner == p
    else exists other :: other in b.roads && b.roads[other] == p && other != e && other in b.topology.vertices[v].edgeIds
  }

  // A free edge that continues the player's network, with a road piece left for it.
  predicate IsOpenEdge(b: BoardState, p: PlayerId, e: EdgeId) {
    && KnownEnds(b, e) && e !in b.roads && |RoadsOf(b, p)| < 15
    && (Continues(b, p, b.topology.edges[e].a, e) || Continues(b, p, b.topology.edges[e].b, e))
  }

  predicate HasRoadTo(b: BoardState, p: PlayerId, v: VertexId)
    requires v in b.topology.vertices
  {
    exists e :: e in b.topology.vertices[v].edgeIds && OwnsRoad(b, p, e)
  }

  // Half of the hand, rounded down.
  predicate IsHalf(selection: Bag, hand: Bag) {
    selection.Complete() && hand.Covers(selection) && 2 * selection.Total() <= hand.Total() <= 2 * selection.Total() + 1
  }

  predicate OwesCards(s: GameState, p: PlayerId) {
    s.pending.Some? && s.pending.value.DiscardResources? && p in s.pending.value.required && p !in s.pending.value.completed
  }

  // A card held since an earlier turn whose effect can take place.
  ghost predicate IsPlayable(s: GameState, p: PlayerId, card: OwnedCard) {
    && card.status == InHand && card.kind != VictoryPoint && card.acquired < s.turn.turnNumber
    && (card.kind == RoadBuilding ==> exists e :: IsOpenEdge(s.board, p, e))
    && (card.kind == Invention ==> s.bank.resources.Total() >= 2)
  }

  predicate IsNamedCard(cards: seq<OwnedCard>, card: OwnedCard, id: int) {
    card in cards && card.id == id
  }

  predicate IsFairOffer(offer: TradeOffer) {
    ValidBundles(offer) && !Overlaps(offer.initiatorGives, offer.counterpartyGives)
  }

  // An offer of one's own, on one's turn, to somebody else.
  predicate IsOwnOffer(s: GameState, actor: PlayerId, offer: TradeOffer) {
    && actor == s.turn.current && offer.initiator == actor && offer.proposedBy == actor
    && offer.counterparty in s.players - {actor} && offer.parent == None && NonBlank(offer.tradeId)
  }

  // A new offer between the same two, made by the one who was asked.
  predicate IsCounterTo(offer: TradeOffer, actor: PlayerId, counter: TradeOffer) {
    && (counter.initiator, counter.counterparty) == (offer.initiator, offer.counterparty)
    && actor == offer.counterparty && counter.proposedBy == actor
    && counter.parent == Some(offer.tradeId) && counter.tradeId != offer.tradeId && NonBlank(counter.tradeId)
  }

  predicate OwnsPort(b: BoardState, p: PlayerId, kind: PortKind) {
    exists port :: port in b.topology.ports && port.kind == kind && (OwnsBuilding(b, p, port.a) || OwnsBuilding(b, p, port.b))
  }

  // How many cards the bank wants for one.
  function Rate(b: BoardState, p: PlayerId, give: Resource): int {
    if OwnsPort(b, p, ForResource(give)) then 2 else if OwnsPort(b, p, Generic) then 3 else 4
  }

  predicate Answers(s: GameState, actor: PlayerId, id: TradeId) {
    && s.pending.Some? && s.pending.value.RespondToTrade?
    && s.pending.value.offer.tradeId == id && s.pending.value.responder == actor
  }

  // The price list.
  function Price(command: Command): Bag {
    match command
    case BuildRoad(_) => Bag(1, 1, 0, 0, 0)
    case BuildSettlement(_) => Bag(1, 1, 1, 1, 0)
    case UpgradeCity(_) => Bag(0, 0, 0, 2, 3)
    case BuyCard => Bag(0, 0, 1, 1, 1)
    case _ => NOTHING
  }

  ghost predicate Allowed(s: GameState, actor: PlayerId, command: Command) {
    && actor in s.players && s.winner.None?
    && match command
       case PlaceInitialSettlement(v) =>
         s.turn.phase == SetupSettlement && actor == s.turn.current && IsOpenSite(s.board, v)
       case PlaceInitialRoad(e) =>
         && s.turn.phase == SetupRoad && actor == s.turn.current && e in s.board.topology.edges
         && s.turn.setup.Some? && s.turn.setup.value.pendingVertex.Some?
         && (var site, d := s.turn.setup.value.pendingVertex.value, s.board.topology.edges[e]; d.a == site || d.b == site)
       case RollDice => s.turn.phase == RollRequired && OnTurn(s, actor)
       case EndTurn => s.turn.phase == Action && OnTurn(s, actor)
       case Discard(selection) =>
         s.turn.phase == DiscardRequired && OwesCards(s, actor) && IsHalf(selection, s.players[actor].resources)
       case Move(tile) =>
         && s.turn.phase == RobberMoveRequired && actor == s.turn.current
         && tile in s.board.topology.tiles && tile != s.board.robberTileId
       case Steal(target) =>
         && s.turn.phase == RobberTargetRequired && actor == s.turn.current && target != actor && target in s.players
         && s.players[target].resources.Total() > 0
         && s.board.robberTileId in s.board.topology.tiles && TileTouches(s.board, s.board.robberTileId, target)
       case BuildRoad(e) =>
         && actor == s.turn.current && IsOpenEdge(s.board, actor, e)
         && (|| s.turn.phase == FreeRoadPlacement
             || (s.turn.phase == Action && s.pending.None? && Holds(s, actor, Price(command))))
       case BuildSettlement(v) =>
         && s.turn.phase == Action && OnTurn(s, actor) && IsOpenSite(s.board, v) && HasRoadTo(s.board, actor, v)
         && |BuildingsOf(s.board, actor, Settlement)| < 5 && Holds(s, actor, Price(command))
       case UpgradeCity(v) =>
         && s.turn.phase == Action && OnTurn(s, actor)
         && v in s.board.buildings && s.board.buildings[v] == Building(Settlement, actor)
         && |BuildingsOf(s.board, actor, City)| < 4 && Holds(s, actor, Price(command))
       case BuyCard => s.turn.phase == Action && OnTurn(s, actor) && s.bank.deck != [] && Holds(s, actor, Price(command))
       case PlayCard(id) =>
         && (s.turn.phase == RollRequired || s.turn.phase == Action) && OnTurn(s, actor) && !s.turn.cardPlayed
         && exists card :: IsNamedCard(s.players[actor].cards, card, id) && IsPlayable(s, actor, card)
       case TakeInvention(selection) =>
         && s.pending.Some? && s.pending.value.ChooseInvention? && actor == s.turn.current
         && selection.Complete() && selection.Total() == 2 && s.bank.resources.Covers(selection)
       case TakeMonopoly(_) => s.pending.Some? && s.pending.value.ChooseMonopoly? && actor == s.turn.current
       case FinishFreeRoads =>
         && s.turn.phase == FreeRoadPlacement && actor == s.turn.current
         && s.pending.Some? && s.pending.value.PlaceFreeRoads? && s.pending.value.remaining == 1
         && forall e :: !IsOpenEdge(s.board, actor, e)
       case ProposeTrade(offer) =>
         && s.turn.phase == Action && OnTurn(s, actor) && IsOwnOffer(s, actor, offer) && IsFairOffer(offer)
         && Holds(s, actor, offer.initiatorGives)
       case AcceptTrade(id) =>
         && Answers(s, actor, id)
         && (var offer := s.pending.value.offer;
             Holds(s, offer.initiator, offer.initiatorGives) && Holds(s, offer.counterparty, offer.counterpartyGives))
       case RejectTrade(id) => Answers(s, actor, id)
       case CounterTrade(id, offer) =>
         && Answers(s, actor, id) && s.pending.value.counterDepth == 0
         && IsCounterTo(s.pending.value.offer, actor, offer) && IsFairOffer(offer)
         && Holds(s, actor, offer.counterpartyGives)
       case MaritimeTrade(give, receive) =>
         && s.turn.phase == Action && OnTurn(s, actor) && give != receive
         && s.players[actor].resources.Get(give) >= Rate(s.board, actor, give)
         && s.bank.resources.Get(receive) >= 1
  }

  // What a command moves.

  datatype Table = Table(board: BoardState, hands: map<PlayerId, Bag>, bank: Bag, deck: seq<CardDefinition>)

  function TableOf(s: GameState): Table {
    Table(s.board, HandsOf(s.players), s.bank.resources, s.bank.deck)
  }

  // One card for every tile around a settlement but the desert.
  function Yield(contents: map<TileId, TileContent>, tiles: seq<TileId>): Bag {
    if tiles == [] then NOTHING
    else
      var rest := Yield(contents, tiles[1..]);
      if tiles[0] !in contents then rest
      else
        match TerrainResource(contents[tiles[0]].terrain)
        case None => rest
        case Some(r) => rest.Set(r, rest.Get(r) + 1)
  }

  function StartingCards(s: GameState, v: VertexId): Bag {
    if v in s.board.topology.vertices && s.turn.setup.Some? && s.turn.setup.value.round == 2
    then Yield(s.board.tileContents, s.board.topology.vertices[v].tileIds) else NOTHING
  }

  // Cards pass from p to the bank.
  function Paid(t: Table, p: PlayerId, cards: Bag): Table
    requires p in t.hands
  {
    t.(hands := t.hands[p := t.hands[p].Minus(cards)], bank := t.bank.Plus(cards))
  }

  // Cards pass from the bank to p.
  function Given(t: Table, p: PlayerId, cards: Bag): Table
    requires p in t.hands
  {
    t.(hands := t.hands[p := t.hands[p].Plus(cards)], bank := t.bank.Minus(cards))
  }

  // Cards pass from p to q.
  function Passed(t: Table, p: PlayerId, q: PlayerId, cards: Bag): Table
    requires p in t.hands && q in t.hands
  {
    var without := t.hands[p := t.hands[p].Minus(cards)];
    t.(hands := without[q := without[q].Plus(cards)])
  }

  function Cards(n: int, r: Resource): Bag {
    NOTHING.Set(r, n)
  }

  function WithRoad(t: Table, p: PlayerId, e: EdgeId): Table {
    t.(board := t.board.(roads := t.board.roads[e := p]))
  }

  function WithBuilding(t: Table, p: PlayerId, v: VertexId, kind: BuildingType): Table {
    t.(board := t.board.(buildings := t.board.buildings[v := Building(kind, p)]))
  }

  // Every player gets what is due, out of the bank.
  function Harvested(s: GameState, t: Table, total: int): Table
    requires forall p :: p in s.playerOrder ==> p in t.hands
  {
    t.(hands := map p | p in t.hands :: if p in s.playerOrder then t.hands[p].Plus(DueCards(s, total, p)) else t.hands[p],
       bank := t.bank.Minus(SumHands(s.playerOrder, map p | p in s.playerOrder :: DueCards(s, total, p))))
  }

  // All cards of one resource go to one player.
  ghost function Monopolised(s: GameState, t: Table, p: PlayerId, r: Resource): Table
    requires forall q :: q in s.playerOrder ==> q in t.hands
  {
    var all := SumHands(s.playerOrder, t.hands).Get(r);
    t.(hands := map q | q in t.hands :: t.hands[q].Set(r, if q == p then all else 0))
  }

  // The card the random state draws from a hand.
  predicate IsDrawable(hand: Bag) {
    hand.Complete() && 0 < hand.Total() <= Words.UINT32_RANGE
  }

  predicate IsDrawn(hand: Bag, random: RandomState, r: Resource) {
    && IsDrawable(hand) && ValidRandomState(random)
    && DrawRandomResource(hand, random).0 == r
  }

  // The random state after such a draw.
  predicate DrawLeaves(hand: Bag, random: RandomState, after: RandomState) {
    IsDrawable(hand) && ValidRandomState(random) && DrawRandomResource(hand, random).1 == after
  }

  ghost predicate Moves(s: GameState, actor: PlayerId, command: Command, t: Table)
    requires actor in s.players && ValidRandomState(s.random) && forall p :: p in s.playerOrder ==> p in s.players
  {
    var before := TableOf(s);
    match command
    case PlaceInitialSettlement(v) => t == Given(WithBuilding(before, actor, v, Settlement), actor, StartingCards(s, v))
    case PlaceInitialRoad(e) => t == WithRoad(before, actor, e)
    case RollDice =>
      var total := RollTwoDice(s.random).0.total;
      t == if total == 7 then before else Harvested(s, before, total)
    case Discard(selection) => t == Paid(before, actor, selection)
    case Move(tile) => t == before.(board := before.board.(robberTileId := tile))
    case Steal(target) =>
      && target in s.players
      && exists r :: IsDrawn(s.players[target].resources, s.random, r) && t == Passed(before, target, actor, Cards(1, r))
    case BuildRoad(e) =>
      t == if s.turn.phase == FreeRoadPlacement then WithRoad(before, actor, e) else Paid(WithRoad(before, actor, e), actor, Price(command))
    case BuildSettlement(v) => t == Paid(WithBuilding(before, actor, v, Settlement), actor, Price(command))
    case UpgradeCity(v) => t == Paid(WithBuilding(before, actor, v, City), actor, Price(command))
    case BuyCard => before.deck != [] && t == Paid(before, actor, Price(command)).(deck := before.deck[1..])
    case TakeInvention(selection) => t == Given(before, actor, selection)
    case TakeMonopoly(r) => t == Monopolised(s, before, actor, r)
    case AcceptTrade(_) =>
      && s.pending.Some? && s.pending.value.RespondToTrade?
      && (var offer := s.pending.value.offer;
          && offer.initiator in s.players && offer.counterparty in s.players
          && t == Passed(Passed(before, offer.initiator, offer.counterparty, offer.initiatorGives),
                         offer.counterparty, offer.initiator, offer.counterpartyGives))
    case MaritimeTrade(give, receive) =>
      t == Given(Paid(before, actor, Cards(Rate(s.board, actor, give), give)), actor, Cards(1, receive))
    case _ => t == before
  }

  // The cards with one of them turned face up.
  function Spent(cards: seq<OwnedCard>, id: int): seq<OwnedCard> {
    if cards == [] then []
    else [if cards[0].id == id then cards[0].(status := Played) else cards[0]] + Spent(cards[1..], id)
  }

  // What becomes of the cards: a bought card is in hand from this turn on, a played one is
  // played, and a winner shows the points held so far.
  function CardsAfter(s: GameState, actor: PlayerId, command: Command): map<PlayerId, Holding>
    requires actor in s.players
  {
    var before := HoldingsOf(s.players);
    match command
    case BuyCard =>
      if s.bank.deck == [] then before
      else
        var bought := OwnedCard(s.bank.deck[0].id, s.bank.deck[0].kind, s.turn.turnNumber, InHand);
        before[actor := Holding(before[actor].cards + [bought], before[actor].playedKnights)]
    case PlayCard(id) =>
      var found := FindCard(before[actor].cards, id);
      var knights := if found.Some? && found.value.kind == Knight then 1 else 0;
      before[actor := Holding(Spent(before[actor].cards, id), before[actor].playedKnights + knights)]
    case _ => before
  }

  predicate ShowsCards(n: GameState, cards: map<PlayerId, Holding>) {
    HoldingsOf(n.players) ==
      if n.winner.Some? && n.turn.current in cards
      then cards[n.turn.current := Holding(RevealPoints(cards[n.turn.current].cards), cards[n.turn.current].playedKnights)]
      else cards
  }

  // Turns pass only at the end of a turn and in setup.
  predicate PassesTurn(s: GameState, command: Command, n: GameState) {
    if command.EndTurn? then n.turn.turnNumber == s.turn.turnNumber + 1
    else !command.PlaceInitialRoad? ==> n.turn.turnNumber == s.turn.turnNumber && n.turn.current == s.turn.current
  }

  // Only a roll and a theft draw on the random state; the roll is remembered until the turn ends,
  // and so is that a card has been played.
  predicate Remembers(s: GameState, command: Command, n: GameState)
    requires ValidRandomState(s.random)
  {
    match command
    case RollDice =>
      n.random == RollTwoDice(s.random).1 && n.turn.lastRoll == Some(RollTwoDice(s.random).0) && n.turn.cardPlayed == s.turn.cardPlayed
    case Steal(target) =>
      && target in s.players && DrawLeaves(s.players[target].resources, s.random, n.random)
      && n.turn.lastRoll == s.turn.lastRoll && n.turn.cardPlayed == s.turn.cardPlayed
    case PlayCard(_) => n.random == s.random && n.turn.lastRoll == s.turn.lastRoll && n.turn.cardPlayed
    case EndTurn => n.random == s.random && n.turn.lastRoll.None? && !n.turn.cardPlayed
    case PlaceInitialRoad(_) => n.random == s.random && n.turn.lastRoll.None? && !n.turn.cardPlayed
    case _ => n.random == s.random && n.turn.lastRoll == s.turn.lastRoll && n.turn.cardPlayed == s.turn.cardPlayed
  }

  ghost predicate Follows(s: GameState, actor: PlayerId, command: Command, n: GameState) {
    && actor in s.players && ValidRandomState(s.random) && (forall p :: p in s.playerOrder ==> p in s.players)
    && n.stateVersion == s.stateVersion + 1 && n.playerOrder == s.playerOrder
    && Moves(s, actor, command, TableOf(n)) && ShowsCards(n, CardsAfter(s, actor, command)) && PassesTurn(s, command, n)
    && Remembers(s, command, n)
  }

  // The engine's own checks say the same.

  lemma ContinuesIs(b: BoardState, p: PlayerId, v: VertexId, e: EdgeId)
    requires v in b.topology.vertices
    ensures Continues(b, p, v, e) <==> ConnectsAt(b, p, v, e)
  {
    if ConnectsAt(b, p, v, e) && v !in b.buildings {
      var other :| other in b.topology.vertices[v].edgeIds && other != e && OwnsRoad(b, p, other);
    }
    if Continues(b, p, v, e) && v !in b.buildings {
      var other :| other in b.roads && b.roads[other] == p && other != e && other in b.topology.vertices[v].edgeIds;
      assert OwnsRoad(b, p, other);
    }
  }

  lemma OffersAre(s: GameState, actor: PlayerId, offer: TradeOffer)
    ensures IsOwnOffer(s, actor, offer) <==> ValidInitialParties(s, actor, offer)
    ensures s.pending.Some? && s.pending.value.RespondToTrade? ==>
              (IsCounterTo(s.pending.value.offer, actor, offer) <==> ValidCounterLineage(s.pending.value, actor, offer))
  {
    hide NonBlank;
  }

  lemma RateIs(b: BoardState, p: PlayerId, give: Resource)
    ensures Rate(b, p, give) == MaritimeRatio(b, p, give)
  {
    PortIs(b, p, ForResource(give));
    PortIs(b, p, Generic);
    hide OwnsPort, ControlsPort;
  }

  lemma PortIs(b: BoardState, p: PlayerId, kind: PortKind)
    ensures OwnsPort(b, p, kind) <==>
              exists i :: 0 <= i < |b.topology.ports| && ControlsPort(b, p, b.topology.ports[i]) && b.topology.ports[i].kind == kind
  {
    hide OwnsBuilding;
    if port :| port in b.topology.ports && port.kind == kind && (OwnsBuilding(b, p, port.a) || OwnsBuilding(b, p, port.b)) {
      var i :| 0 <= i < |b.topology.ports| && b.topology.ports[i] == port;
      assert ControlsPort(b, p, b.topology.ports[i]);
    }
  }

  lemma HarvestIs(s: GameState, total: int)
    requires Distinct(s.playerOrder) && (forall p :: p in s.playerOrder ==> p in s.players)
    requires ValidTopology(s.board.topology) && OwnersKnown(s)
    ensures Harvested(s, TableOf(s), total) == TableOf(s).(hands := HandsOf(ProducedPlayers(s, total)), bank := ProducedBank(s, total))
  {
    hide DueCards, ShareBag, ProducingTiles, SumHands, Bag.Plus, Bag.Minus, ValidTopology;
    var tiles := ProducingTiles(s.board, s.board.topology.tileOrder, total);
    forall p | p in s.playerOrder ensures DueCards(s, total, p) == ShareBag(s.board, tiles, s.playerOrder, s.bank.resources, p) {
      SharesAreDue(s, total, p);
    }
    assert (map p | p in s.playerOrder :: DueCards(s, total, p)) == Shares(s.board, tiles, s.playerOrder, s.bank.resources);
  }

  lemma {:induction false} SpentIs(cards: seq<OwnedCard>, id: int)
    ensures Spent(cards, id) == ReplaceStatus(cards, id, Played)
  {
    if cards != [] {
      SpentIs(cards[1..], id);
    }
  }

  // Awards and victory settle a command without moving anything.

  ghost predicate Settles(n: GameState, r: GameState) {
    || r == n.(awards := r.awards)
    || (n.turn.current in n.players && r == Won(n.(awards := r.awards)))
  }

  lemma CurrentIsKnown(n: GameState)
    ensures ScoringAsserts(n) ==> n.turn.current in n.players
  {
  }

  lemma ResolveSettles(n: GameState)
    ensures hide *; !ResolveVictory(n).Rejected? && (ResolveVictory(n).Accepted? ==> Settles(n, ResolveVictory(n).state))
  {
    CurrentIsKnown(n);
    hide ScoringAsserts, Points, RevealPoints;
  }

  lemma ReconcileSettles(n: GameState)
    ensures hide *; !ReconcileAwards(n).Rejected? && !ReconcileAndResolve(n).Rejected?
    ensures ReconcileAwards(n).Accepted? ==> ReconcileAwards(n).state == n.(awards := ReconcileAwards(n).state.awards)
    ensures ReconcileAndResolve(n).Accepted? ==> Settles(n, ReconcileAndResolve(n).state)
  {
    if ReconcileAwards(n).Accepted? {
      ResolveSettles(ReconcileAwards(n).state);
    }
    hide ScoringAsserts, ScoringInputAsserts, DerivedAwards, ResolveVictory;
  }

  lemma SettledFollows(s: GameState, actor: PlayerId, command: Command, n: GameState, r: GameState)
    requires actor in s.players && ValidRandomState(s.random) && forall p :: p in s.playerOrder ==> p in s.players
    requires Follows(s, actor, command, n) && Settles(n, r) && n.winner.None?
    ensures Follows(s, actor, command, r)
  {
    hide Moves, CardsAfter, RevealPoints, RollTwoDice, DrawLeaves, ValidRandomState;
    if r != n.(awards := r.awards) {
      WonMaps(n.(awards := r.awards));
    }
    assert TableOf(r) == TableOf(n);
  }
}
