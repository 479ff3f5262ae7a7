// The authoritative game state and the commands that move it.

module Bags {
  import opened Board
  import opened Words
  import opened SeededRandom

  // A resource bag; submitted bags may hold any integers.
  datatype Bag = Bag(lumber: int, brick: int, wool: int, grain: int, ore: int) {
    function Get(r: Resource): int {
      match r
      case Lumber => lumber
      case Brick => brick
      case Wool => wool
      case Grain => grain
      case Ore => ore
    }

    function Set(r: Resource, n: int): Bag {
      match r
      case Lumber => this.(lumber := n)
      case Brick => this.(brick := n)
      case Wool => this.(wool := n)
      case Grain => this.(grain := n)
      case Ore => this.(ore := n)
    }

    function Plus(other: Bag): Bag {
      Bag(lumber + other.lumber, brick + other.brick, wool + other.wool, grain + other.grain, ore + other.ore)
    }

    function Minus(other: Bag): Bag {
      Bag(lumber - other.lumber, brick - other.brick, wool - other.wool, grain - other.grain, ore - other.ore)
    }

    function Total(): int {
      lumber + brick + wool + grain + ore
    }

    predicate Complete() {
      lumber >= 0 && brick >= 0 && wool >= 0 && grain >= 0 && ore >= 0
    }

    predicate Covers(cost: Bag) {
      lumber >= cost.lumber && brick >= cost.brick && wool >= cost.wool && grain >= cost.grain && ore >= cost.ore
    }
  }

  const NOTHING := Bag(0, 0, 0, 0, 0)
  const STANDARD_SUPPLY := Bag(19, 19, 19, 19, 19)
  const ROAD_COST := Bag(1, 1, 0, 0, 0)
  const SETTLEMENT_COST := Bag(1, 1, 1, 1, 0)
  const CITY_COST := Bag(0, 0, 0, 2, 3)
  const CARD_COST := Bag(0, 0, 1, 1, 1)

  // The resource that card number `index` of a hand shows, counting in the frozen resource order.
  function ResourceAt(hand: Bag, index: int): Resource {
    if index < hand.lumber then Lumber
    else if index < hand.lumber + hand.brick then Brick
    else if index < hand.lumber + hand.brick + hand.wool then Wool
    else if index < hand.lumber + hand.brick + hand.wool + hand.grain then Grain
    else Ore
  }

  // The drawn card is one the hand holds.
  function DrawRandomResource(hand: Bag, r: RandomState): (draw: (Resource, RandomState))
    requires hand.Complete() && 0 < hand.Total() <= UINT32_RANGE && ValidRandomState(r)
    ensures hand.Get(draw.0) > 0 && ValidRandomState(draw.1)
  {
    var selection := NextInt(r, 0, hand.Total());
    (ResourceAt(hand, selection.0), selection.1)
  }

  // The selection loop: it always resolves, so its closing throw is dead.
  method SelectResource(hand: Bag, selection: int) returns (resource: Resource)
    requires hand.Complete() && 0 <= selection < hand.Total()
    ensures resource == ResourceAt(hand, selection)
  {
    assert PrefixCount(hand, 5) == hand.ore + PrefixCount(hand, 4);
    assert PrefixCount(hand, 3) == hand.wool + PrefixCount(hand, 2);
    assert PrefixCount(hand, 1) == hand.lumber;
    var cumulative := 0;
    resource := Lumber;
    for i := 0 to |RESOURCE_TYPES|
      invariant cumulative == PrefixCount(hand, i) <= selection
    {
      cumulative := cumulative + hand.Get(RESOURCE_TYPES[i]);
      if selection < cumulative {
        resource := RESOURCE_TYPES[i];
        return;
      }
    }
    assert false;
  }

  function PrefixCount(hand: Bag, i: nat): int
    requires i <= |RESOURCE_TYPES|
  {
    if i == 0 then 0 else PrefixCount(hand, i - 1) + hand.Get(RESOURCE_TYPES[i - 1])
  }
}

module GameModel {
  import opened Board
  import opened Bags
  import opened SeededRandom

  datatype CardType = Knight | RoadBuilding | Monopoly | Invention | VictoryPoint

  datatype CardStatus = InHand | Played | Revealed

  // Card IDs number the standard deck source from 0.
  datatype CardDefinition = CardDefinition(id: int, kind: CardType)

  datatype OwnedCard = OwnedCard(id: int, kind: CardType, acquired: int, status: CardStatus)

  const STANDARD_DECK_SIZE := 25

  // 14 Knights, 5 Victory Points, 2 Road Building, 2 Monopoly and 2 Invention.
  function StandardKind(id: int): CardType {
    if id < 14 then Knight
    else if id < 19 then VictoryPoint
    else if id < 21 then RoadBuilding
    else if id < 23 then Monopoly
    else Invention
  }

  datatype PlayerState = PlayerState(resources: Bag, cards: seq<OwnedCard>, playedKnights: int)

  datatype BankState = BankState(resources: Bag, deck: seq<CardDefinition>)

  datatype DiceRoll = DiceRoll(first: int, second: int, total: int)

  datatype Phase =
    | SetupSettlement | SetupRoad | RollRequired | DiscardRequired | RobberMoveRequired
    | RobberTargetRequired | Action | FreeRoadPlacement | GameOver

  datatype SetupState = SetupState(round: int, placementIndex: int, pendingVertex: Option<VertexId>)

  datatype TurnState = TurnState(
    turnNumber: int, current: PlayerId, phase: Phase, setup: Option<SetupState>,
    lastRoll: Option<DiceRoll>, cardPlayed: bool)

  datatype Awards = Awards(longestRoad: Option<PlayerId>, largestArmy: Option<PlayerId>)

  datatype RobberCause = DiceSeven | KnightCause(cardId: int)

  type TradeId = string

  datatype TradeOffer = TradeOffer(
    tradeId: TradeId, initiator: PlayerId, counterparty: PlayerId, proposedBy: PlayerId,
    initiatorGives: Bag, counterpartyGives: Bag, parent: Option<TradeId>)

  datatype Pending =
    | DiscardResources(trigger: PlayerId, required: map<PlayerId, int>, completed: seq<PlayerId>)
    | MoveRobber(actor: PlayerId, cause: RobberCause)
    | ChooseRobberTarget(actor: PlayerId, tile: TileId, eligible: seq<PlayerId>, cause: RobberCause)
    | PlaceFreeRoads(actor: PlayerId, cardId: int, remaining: int)
    | ChooseInvention(actor: PlayerId, cardId: int)
    | ChooseMonopoly(actor: PlayerId, cardId: int)
    | RespondToTrade(responder: PlayerId, offer: TradeOffer, counterDepth: int)

  datatype GameState = GameState(
    stateVersion: int,
    board: BoardState,
    players: map<PlayerId, PlayerState>,
    playerOrder: seq<PlayerId>,
    bank: BankState,
    turn: TurnState,
    awards: Awards,
    pending: Option<Pending>,
    random: RandomState,
    winner: Option<PlayerId>)

  datatype Command =
    | PlaceInitialSettlement(vertexId: VertexId)
    | PlaceInitialRoad(edgeId: EdgeId)
    | RollDice
    | Discard(resources: Bag)
    | Move(tileId: TileId)
    | Steal(target: PlayerId)
    | BuildRoad(roadEdgeId: EdgeId)
    | BuildSettlement(siteId: VertexId)
    | UpgradeCity(cityId: VertexId)
    | BuyCard
    | PlayCard(cardId: int)
    | TakeInvention(selection: Bag)
    | TakeMonopoly(resource: Resource)
    | FinishFreeRoads
    | ProposeTrade(offer: TradeOffer)
    | AcceptTrade(tradeId: TradeId)
    | RejectTrade(tradeId: TradeId)
    | CounterTrade(previousTradeId: TradeId, counter: TradeOffer)
    | MaritimeTrade(give: Resource, receive: Resource)
    | EndTurn

  datatype Envelope = Envelope(actor: PlayerId, expectedStateVersion: int, command: Command)

  datatype Violation =
    | StaleStateVersion | UnknownActor | GameIsOver | NotYourTurn | WrongPhase | PendingDecisionRequired
    | InsufficientResources | InsufficientPieces | BankResourceUnavailable | DevelopmentDeckEmpty
    | CardNotOwned | CardNotPlayable | CardLimitReached | IllegalVertex | IllegalEdge
    | DistanceRuleViolation | RoadNotConnected | RoadBlocked | InvalidRobberTile | InvalidRobberTarget
    | InvalidDiscard | TradeNotAllowed | InvalidTradeOffer | TradePartyMismatch | TradeResourceUnavailable
    | TradeNotPending | SameResourceTrade

  // A command is accepted, rejected with a rule violation, or ends in a thrown assertion.
  datatype EngineResult = Accepted(state: GameState) | Rejected(violation: Violation) | Threw

  // Which hands and which cards the players hold.

  function HandsOf(players: map<PlayerId, PlayerState>): map<PlayerId, Bag> {
    map p | p in players :: players[p].resources
  }

  datatype Holding = Holding(cards: seq<OwnedCard>, playedKnights: int)

  function HoldingsOf(players: map<PlayerId, PlayerState>): map<PlayerId, Holding> {
    map p | p in players :: Holding(players[p].cards, players[p].playedKnights)
  }

  function WithHand(players: map<PlayerId, PlayerState>, p: PlayerId, hand: Bag): map<PlayerId, PlayerState>
    requires p in players
  {
    players[p := players[p].(resources := hand)]
  }

  lemma HandUpdate(players: map<PlayerId, PlayerState>, p: PlayerId, hand: Bag)
    requires p in players
    ensures HandsOf(WithHand(players, p, hand)) == HandsOf(players)[p := hand]
    ensures HoldingsOf(WithHand(players, p, hand)) == HoldingsOf(players)
    ensures WithHand(players, p, hand).Keys == players.Keys
  {
  }
}
