// The runtime assertions the engine evaluates around every command.

module Assertions {
  import opened Board
  import opened Bags
  import opened GameModel
  import opened LongestRoad
  import opened SeededRandom
  import opened Production
  import opened Rules

  const LONGEST_ROAD_MINIMUM := 5
  const LARGEST_ARMY_MINIMUM := 3
  const VICTORY_TARGET := 10

  predicate InSetup(s: GameState) {
    s.turn.phase == SetupSettlement || s.turn.phase == SetupRoad
  }

  ghost predicate FourPlayers(s: GameState) {
    && |s.playerOrder| == 4 && Distinct(s.playerOrder)
    && s.players.Keys == (set p | p in s.playerOrder)
    && s.turn.current in s.playerOrder
  }

  ghost predicate HandsComplete(s: GameState) {
    s.bank.resources.Complete() && forall p :: p in s.players ==> s.players[p].resources.Complete()
  }

  // Occupied places exist and belong to players.
  ghost predicate KnownOccupancy(b: BoardState, players: set<PlayerId>) {
    && (forall v :: v in b.buildings ==> v in b.topology.vertices && b.buildings[v].owner in players)
    && (forall e :: e in b.roads ==> e in b.topology.edges && b.roads[e] in players)
  }

  function ExpectedSetupIndex(setup: SetupState): int {
    if setup.round == 1 then setup.placementIndex else 3 - setup.placementIndex
  }

  // assertInitialSetupState
  ghost predicate SetupAsserts(s: GameState) {
    && s.stateVersion >= 0
    && ValidTopology(s.board.topology)
    && FourPlayers(s)
    && HandsComplete(s)
    && KnownOccupancy(s.board, s.players.Keys)
    && (InSetup(s) ==>
          && s.winner.None? && s.pending.None? && s.turn.turnNumber == 0
          && s.turn.setup.Some?
          && (var setup := s.turn.setup.value;
              && (setup.round == 1 || setup.round == 2)
              && 0 <= setup.placementIndex <= 3
              && s.turn.current == s.playerOrder[ExpectedSetupIndex(setup)]
              && (s.turn.phase == SetupSettlement ==> setup.pendingVertex.None?)
              && (s.turn.phase == SetupRoad ==>
                    && setup.pendingVertex.Some?
                    && setup.pendingVertex.value in s.board.buildings
                    && s.board.buildings[setup.pendingVertex.value] == Building(Settlement, s.turn.current))))
  }

  predicate ValidToken(n: int) {
    2 <= n <= 12 && n != 7
  }

  ghost predicate ValidContents(b: BoardState) {
    && b.tileContents.Keys == b.topology.tiles.Keys
    && (forall tile :: tile in b.tileContents ==>
          var content := b.tileContents[tile];
          if content.terrain == Desert then content.numberToken.None?
          else content.numberToken.Some? && ValidToken(content.numberToken.value))
    && b.robberTileId in b.topology.tiles
  }

  predicate ValidRoll(roll: DiceRoll) {
    1 <= roll.first <= 6 && 1 <= roll.second <= 6 && roll.total == roll.first + roll.second
  }

  predicate RolledSeven(turn: TurnState) {
    turn.lastRoll.Some? && turn.lastRoll.value.total == 7
  }

  ghost predicate Subset(s: seq<PlayerId>, players: set<PlayerId>) {
    forall p :: p in s ==> p in players
  }

  ghost predicate PendingNamesKnown(pending: Pending, players: set<PlayerId>) {
    match pending
    case DiscardResources(trigger, required, completed) =>
      && trigger in players && required.Keys <= players && Distinct(completed) && Subset(completed, required.Keys)
      && (forall p :: p in required ==> required[p] > 0)
    case MoveRobber(actor, _) => actor in players
    case ChooseRobberTarget(actor, _, eligible, _) => actor in players && Subset(eligible, players)
    case PlaceFreeRoads(actor, _, _) => actor in players
    case ChooseInvention(actor, _) => actor in players
    case ChooseMonopoly(actor, _) => actor in players
    case RespondToTrade(responder, offer, _) =>
      responder in players && offer.initiator in players && offer.counterparty in players && offer.proposedBy in players
  }

  // assertNormalTurnState
  ghost predicate NormalAsserts(s: GameState) {
    if InSetup(s) then SetupAsserts(s)
    else
      && s.stateVersion >= 0
      && FourPlayers(s)
      && s.turn.setup.None? && s.turn.turnNumber > 0
      && HandsComplete(s)
      && ValidTopology(s.board.topology) && ValidContents(s.board) && KnownOccupancy(s.board, s.players.Keys)
      && ValidRandomState(s.random)
      && (s.turn.lastRoll.Some? ==> ValidRoll(s.turn.lastRoll.value))
      && (s.turn.phase == RollRequired ==> s.turn.lastRoll.None?)
      && (s.turn.phase == Action ==>
            && s.turn.lastRoll.Some?
            && (s.pending.None? || s.pending.value.ChooseInvention? || s.pending.value.ChooseMonopoly?
                || s.pending.value.RespondToTrade?))
      && (s.pending.Some? ==> PendingNamesKnown(s.pending.value, s.players.Keys))
      && (s.turn.phase == DiscardRequired ==>
            && s.pending.Some? && s.pending.value.DiscardResources?
            && s.pending.value.required != map[] && RolledSeven(s.turn))
      && (s.turn.phase == RobberMoveRequired ==>
            && s.pending.Some? && s.pending.value.MoveRobber?
            && s.pending.value.actor == s.turn.current
            && (s.pending.value.cause.DiceSeven? ==> RolledSeven(s.turn)))
      && (s.turn.phase == RobberTargetRequired ==>
            && s.pending.Some? && s.pending.value.ChooseRobberTarget?
            && s.pending.value.actor == s.turn.current
            && s.pending.value.tile == s.board.robberTileId
            && s.pending.value.eligible != []
            && s.pending.value.eligible == EligibleTargets(s.board, s.players, s.playerOrder, s.pending.value.tile, s.pending.value.actor)
            && (s.pending.value.cause.DiceSeven? ==> RolledSeven(s.turn)))
      && (if s.turn.phase == GameOver then s.winner.Some? && s.winner.value in s.players else s.winner.None?)
  }

  function CombinedSupply(s: GameState): Bag
    requires forall p :: p in s.playerOrder ==> p in s.players
  {
    s.bank.resources.Plus(SumHands(s.playerOrder, HandsOf(s.players)))
  }

  function FilterOrder(order: seq<PlayerId>, chosen: set<PlayerId>): seq<PlayerId> {
    if order == [] then []
    else (if order[0] in chosen then [order[0]] else []) + FilterOrder(order[1..], chosen)
  }

  // assertRobberWorkflowState
  ghost predicate RobberAsserts(s: GameState) {
    && NormalAsserts(s)
    && (!InSetup(s) ==> CombinedSupply(s) == STANDARD_SUPPLY)
    && (s.turn.phase == DiscardRequired ==>
          var pending := s.pending.value;
          var done := set p | p in pending.completed;
          && pending.trigger == s.turn.current
          && pending.completed == FilterOrder(s.playerOrder, done)
          && (exists p :: p in pending.required && p !in done)
          && (forall p :: p in pending.required && p !in done ==>
                pending.required[p] == s.players[p].resources.Total() / 2))
  }

  ghost predicate WithinLimits(b: BoardState, players: set<PlayerId>) {
    forall p :: p in players ==>
      && |RoadsOf(b, p)| <= ROAD_LIMIT
      && |BuildingsOf(b, p, Settlement)| <= SETTLEMENT_LIMIT
      && |BuildingsOf(b, p, City)| <= CITY_LIMIT
  }

  // assertPaidBuildingState
  ghost predicate PaidAsserts(s: GameState) {
    && RobberAsserts(s)
    && HandsComplete(s)
    && CombinedSupply(s) == STANDARD_SUPPLY
    && KnownOccupancy(s.board, s.players.Keys)
    && WithinLimits(s.board, s.players.Keys)
  }

  // The identities of all cards, wherever they are.

  function DeckIds(deck: seq<CardDefinition>): multiset<int> {
    if deck == [] then multiset{} else multiset{deck[0].id} + DeckIds(deck[1..])
  }

  function CardIds(cards: seq<OwnedCard>): multiset<int> {
    if cards == [] then multiset{} else multiset{cards[0].id} + CardIds(cards[1..])
  }

  function HeldIds(order: seq<PlayerId>, holdings: map<PlayerId, Holding>): multiset<int>
    requires forall p :: p in order ==> p in holdings
  {
    if order == [] then multiset{}
    else
      var first := order[0];
      assert first in order;
      CardIds(holdings[first].cards) + HeldIds(order[1..], holdings)
  }

  function AllCardIds(order: seq<PlayerId>, holdings: map<PlayerId, Holding>, deck: seq<CardDefinition>): multiset<int>
    requires forall p :: p in order ==> p in holdings
  {
    DeckIds(deck) + HeldIds(order, holdings)
  }

  // Each of the 25 standard identities once.
  function StandardIds(): multiset<int> {
    IdsBelow(STANDARD_DECK_SIZE)
  }

  function IdsBelow(n: nat): multiset<int> {
    multiset(seq(n, i => i))
  }

  ghost predicate NoDuplicateCards(s: GameState)
    requires FourPlayers(s)
  {
    forall id :: AllCardIds(s.playerOrder, HoldingsOf(s.players), s.bank.deck)[id] <= 1
  }

  function ActualPoints(s: GameState, p: PlayerId): nat
    requires p in s.players
  {
    Points(s.board, s.awards, p, s.players[p].cards)
  }

  ghost predicate NoHiddenPoints(cards: seq<OwnedCard>) {
    forall i :: 0 <= i < |cards| ==> !(cards[i].kind == VictoryPoint && cards[i].status == InHand)
  }

  // assertScoringReconciliationInputState
  ghost predicate ScoringInputAsserts(s: GameState) {
    && PaidAsserts(s)
    && FourPlayers(s)
    && NoDuplicateCards(s)
    && (forall p :: p in s.players ==> s.players[p].playedKnights >= 0)
    && (forall p, i :: p in s.players && 0 <= i < |s.players[p].cards| ==>
          !(s.players[p].cards[i].kind == VictoryPoint && s.players[p].cards[i].status == Played))
    && (s.awards.longestRoad.Some? ==> s.awards.longestRoad.value in s.players)
    && (s.awards.largestArmy.Some? ==> s.awards.largestArmy.value in s.players)
    && (if s.winner.None? then s.turn.phase != GameOver
        else
          && s.winner.value in s.players && s.turn.phase == GameOver && s.winner.value == s.turn.current
          && s.pending.None? && ActualPoints(s, s.winner.value) >= VICTORY_TARGET
          && NoHiddenPoints(s.players[s.winner.value].cards))
  }

  // assertScoringState
  ghost predicate ScoringAsserts(s: GameState) {
    && ScoringInputAsserts(s)
    && (s.awards.longestRoad.Some? ==>
          && LongestRoadLength(s.board, s.awards.longestRoad.value) >= LONGEST_ROAD_MINIMUM
          && forall p :: p in s.playerOrder ==>
               LongestRoadLength(s.board, p) <= LongestRoadLength(s.board, s.awards.longestRoad.value))
    && (s.awards.largestArmy.Some? ==>
          && s.players[s.awards.largestArmy.value].playedKnights >= LARGEST_ARMY_MINIMUM
          && forall p :: p in s.playerOrder ==>
               s.players[p].playedKnights <= s.players[s.awards.largestArmy.value].playedKnights)
  }

  ghost predicate ValidOwnedCard(card: OwnedCard, turnNumber: int) {
    && 0 <= card.id < STANDARD_DECK_SIZE && card.kind == StandardKind(card.id)
    && 0 <= card.acquired <= turnNumber
    && (if card.kind == VictoryPoint then card.status != Played else card.status != Revealed)
  }

  ghost predicate ValidDeck(deck: seq<CardDefinition>) {
    forall i :: 0 <= i < |deck| ==> 0 <= deck[i].id < STANDARD_DECK_SIZE && deck[i].kind == StandardKind(deck[i].id)
  }

  ghost predicate ValidHolding(h: Holding, turnNumber: int) {
    && (forall i :: 0 <= i < |h.cards| ==> ValidOwnedCard(h.cards[i], turnNumber))
    && h.playedKnights == PlayedKnightCount(h.cards)
  }

  ghost predicate PlayedReference(players: map<PlayerId, PlayerState>, p: PlayerId, id: int, kind: CardType) {
    && p in players
    && FindCard(players[p].cards, id).Some?
    && FindCard(players[p].cards, id).value.kind == kind
    && FindCard(players[p].cards, id).value.status == Played
  }

  ghost predicate PendingCoherent(s: GameState) {
    s.pending.Some? ==>
      match s.pending.value
      case PlaceFreeRoads(actor, id, remaining) =>
        && s.turn.phase == FreeRoadPlacement && actor == s.turn.current && (remaining == 1 || remaining == 2)
        && PlayedReference(s.players, actor, id, RoadBuilding)
      case ChooseInvention(actor, id) =>
        s.turn.phase == ResumePhase(s) && actor == s.turn.current && PlayedReference(s.players, actor, id, Invention)
      case ChooseMonopoly(actor, id) =>
        s.turn.phase == ResumePhase(s) && actor == s.turn.current && PlayedReference(s.players, actor, id, Monopoly)
      case MoveRobber(actor, cause) =>
        cause.KnightCause? ==> actor == s.turn.current && PlayedReference(s.players, actor, cause.cardId, Knight)
      case ChooseRobberTarget(actor, _, _, cause) =>
        cause.KnightCause? ==> actor == s.turn.current && PlayedReference(s.players, actor, cause.cardId, Knight)
      case DiscardResources(_, _, _) => true
      case RespondToTrade(_, _, _) => true
  }

  // assertDevelopmentCardState
  ghost predicate CardAsserts(s: GameState) {
    && ScoringAsserts(s)
    && ValidDeck(s.bank.deck)
    && (forall p :: p in s.playerOrder ==> p in HoldingsOf(s.players) && ValidHolding(HoldingsOf(s.players)[p], s.turn.turnNumber))
    && AllCardIds(s.playerOrder, HoldingsOf(s.players), s.bank.deck) == StandardIds()
    && (s.winner.Some? || s.turn.phase == GameOver ==> s.pending.None?)
    && PendingCoherent(s)
  }

  ghost predicate TradeCoherent(
    players: map<PlayerId, PlayerState>, turn: TurnState, pending: Option<Pending>, winner: Option<PlayerId>)
  {
    pending.Some? && pending.value.RespondToTrade? ==>
      var offer, depth := pending.value.offer, pending.value.counterDepth;
      && turn.phase == Action && winner.None? && (depth == 0 || depth == 1)
      && NonBlank(offer.tradeId)
      && offer.initiator in players && offer.counterparty in players && offer.initiator != offer.counterparty
      && offer.initiator == turn.current
      && (offer.proposedBy == offer.initiator || offer.proposedBy == offer.counterparty)
      && pending.value.responder == (if offer.proposedBy == offer.initiator then offer.counterparty else offer.initiator)
      && ValidBundles(offer) && !Overlaps(offer.initiatorGives, offer.counterpartyGives)
      && (if depth == 0 then
            && offer.parent.None? && offer.proposedBy == offer.initiator
            && CanProvide(players[offer.initiator].resources, offer.initiatorGives)
          else
            && offer.parent.Some? && NonBlank(offer.parent.value) && offer.parent.value != offer.tradeId
            && offer.proposedBy == offer.counterparty
            && CanProvide(players[offer.counterparty].resources, offer.counterpartyGives))
  }

  // assertTradingState, the top of the stack
  ghost predicate TradingAsserts(s: GameState) {
    CardAsserts(s) && TradeCoherent(s.players, s.turn, s.pending, s.winner)
  }
}
