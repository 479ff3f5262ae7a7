// What every reachable state satisfies, said in numbers and places instead of the assertions' words.

module StateFacts {
  import opened Board
  import opened Bags
  import opened GameModel
  import opened SeededRandom
  import opened Production
  import opened Rules
  import opened Assertions
  import opened Engine
  import opened Invariants
  import opened CardFacts
  import opened InvariantsImplyAssertions
  import opened Frames
  import opened Reachability

  lemma Reached(s: GameState)
    requires hide *; Reachable(s)
    ensures TradingAsserts(s) && CardAsserts(s) && FourPlayers(s) && BoardInv(s.board, s.players.Keys)
    ensures |s.playerOrder| == 4 && Distinct(s.playerOrder) && forall p :: p in s.playerOrder <==> p in s.players
  {
    hide Reachable, Inv, TradingAsserts, CardAsserts, BoardInv;
    ReachableInv(s);
    InvAsserts(s);
    InvBoard(s);
    PlayersAre(s);
  }

  // The cards of one resource in the hand of the player at an index of the order.
  function HeldBy(s: GameState, i: nat, r: Resource): int {
    if i < |s.playerOrder| && s.playerOrder[i] in s.players then s.players[s.playerOrder[i]].resources.Get(r) else 0
  }

  // There are nineteen cards of every resource, in the hands and in the bank.
  lemma NineteenOfEach(s: GameState, r: Resource)
    requires Reachable(s)
    ensures |s.playerOrder| == 4 && forall p :: p in s.playerOrder ==> p in s.players
    ensures s.bank.resources.Get(r) >= 0 && forall p :: p in s.playerOrder ==> s.players[p].resources.Get(r) >= 0
    ensures s.bank.resources.Get(r) + HeldBy(s, 0, r) + HeldBy(s, 1, r) + HeldBy(s, 2, r) + HeldBy(s, 3, r) == 19
  {
    hide Reachable, TradingAsserts, BoardInv;
    Reached(s);
    SupplyIs(s);
    hide *;
    FourHands(s.playerOrder, HandsOf(s.players), r);
    NineteenIs(s, r);
  }

  lemma SupplyIs(s: GameState)
    requires CardAsserts(s)
    ensures (forall p :: p in s.playerOrder <==> p in s.players) && HandsComplete(s) && CombinedSupply(s) == STANDARD_SUPPLY
  {
    hide ScoringAsserts;
    assert ScoringAsserts(s);
    hide RobberAsserts, ValidTopology;
    SupplyOf(s);
  }

  lemma SupplyOf(s: GameState)
    requires hide *; ScoringAsserts(s)
    ensures PaidAsserts(s) && FourPlayers(s)
  {
    hide PaidAsserts, NoDuplicateCards;
  }

  lemma FourHands(order: seq<PlayerId>, hands: map<PlayerId, Bag>, r: Resource)
    requires |order| == 4 && forall p :: p in order ==> p in hands
    ensures SumHands(order, hands).Get(r)
         == hands[order[0]].Get(r) + hands[order[1]].Get(r) + hands[order[2]].Get(r) + hands[order[3]].Get(r)
  {
    hide SumHands;
    assert forall i :: 0 <= i < 4 ==> order[i] in order;
    SumHandsUnfold(order, hands);
    SumHandsUnfold(order[1..], hands);
    SumHandsUnfold(order[2..], hands);
    SumHandsUnfold(order[3..], hands);
    SumHandsUnfold([], hands);
    assert order[1..][1..] == order[2..] && order[2..][1..] == order[3..] && order[3..][1..] == [];
  }

  lemma NineteenIs(s: GameState, r: Resource)
    requires |s.playerOrder| == 4 && (forall p :: p in s.playerOrder <==> p in s.players)
    requires HandsComplete(s) && CombinedSupply(s) == STANDARD_SUPPLY
    ensures s.bank.resources.Get(r) >= 0 && forall p :: p in s.playerOrder ==> s.players[p].resources.Get(r) >= 0
    ensures s.bank.resources.Get(r) + SumHands(s.playerOrder, HandsOf(s.players)).Get(r) == 19
    ensures forall i: nat :: i < 4 ==> s.playerOrder[i] in s.players && HandsOf(s.players)[s.playerOrder[i]].Get(r) == HeldBy(s, i, r)
  {
    hide SumHands, Bag.Get, Bag.Complete;
    BagGets(s.bank.resources, SumHands(s.playerOrder, HandsOf(s.players)), r);
    forall i: nat | i < 4
      ensures s.playerOrder[i] in s.players && HandsOf(s.players)[s.playerOrder[i]].Get(r) == HeldBy(s, i, r)
    {
      assert s.playerOrder[i] in s.playerOrder;
    }
    forall p | p in s.playerOrder ensures s.players[p].resources.Get(r) >= 0 {
      BagGets(s.players[p].resources, NOTHING, r);
    }
  }

  lemma BagGets(a: Bag, b: Bag, r: Resource)
    ensures a.Plus(b).Get(r) == a.Get(r) + b.Get(r) && STANDARD_SUPPLY.Get(r) == 19
    ensures a.Complete() ==> a.Get(r) >= 0
  {
  }

  // Nobody has more pieces on the board than the box holds, no edge has buildings at both its ends,
  // and every tile but the desert carries a number that two dice can show, and not the seven.
  lemma BoardIsLegal(s: GameState, p: PlayerId, e: EdgeId, tile: TileId)
    requires Reachable(s)
    ensures p in s.players ==>
              |RoadsOf(s.board, p)| <= 15 && |BuildingsOf(s.board, p, Settlement)| <= 5 && |BuildingsOf(s.board, p, City)| <= 4
    ensures p !in s.players ==> RoadsOf(s.board, p) == {} && BuildingsOf(s.board, p, Settlement) == BuildingsOf(s.board, p, City) == {}
    ensures e in s.board.topology.edges ==>
              s.board.topology.edges[e].a !in s.board.buildings || s.board.topology.edges[e].b !in s.board.buildings
    ensures e in s.board.roads ==> e in s.board.topology.edges
    ensures s.board.robberTileId in s.board.topology.tiles && s.board.tileContents.Keys == s.board.topology.tiles.Keys
    ensures tile in s.board.tileContents ==>
              if s.board.tileContents[tile].terrain == Desert then s.board.tileContents[tile].numberToken.None?
              else s.board.tileContents[tile].numberToken.Some?
                   && s.board.tileContents[tile].numberToken.value in {2, 3, 4, 5, 6, 8, 9, 10, 11, 12}
  {
    hide Reachable, TradingAsserts, CardAsserts, BoardInv;
    Reached(s);
    PiecesAre(s.board, s.players.Keys, p);
    TilesAre(s.board, s.players.Keys);
    if e in s.board.topology.edges {
      EdgeIsFree(s.board, s.players.Keys, e);
    }
  }

  lemma PiecesAre(b: BoardState, players: set<PlayerId>, p: PlayerId)
    requires hide *; BoardInv(b, players)
    ensures p in players ==> |RoadsOf(b, p)| <= 15 && |BuildingsOf(b, p, Settlement)| <= 5 && |BuildingsOf(b, p, City)| <= 4
    ensures p !in players ==> RoadsOf(b, p) == {} && BuildingsOf(b, p, Settlement) == BuildingsOf(b, p, City) == {}
    ensures forall e :: e in b.roads ==> e in b.topology.edges
  {
    hide ValidTopology, ValidContents, Spaced, AllAnchored;
    if p !in players {
      assert forall e :: e in b.roads ==> b.roads[e] != p;
      assert forall v :: v in b.buildings ==> b.buildings[v].owner != p;
    }
  }

  lemma TilesAre(b: BoardState, players: set<PlayerId>)
    requires hide *; BoardInv(b, players)
    ensures b.robberTileId in b.topology.tiles && b.tileContents.Keys == b.topology.tiles.Keys
    ensures forall tile :: tile in b.tileContents ==>
              if b.tileContents[tile].terrain == Desert then b.tileContents[tile].numberToken.None?
              else b.tileContents[tile].numberToken.Some? && b.tileContents[tile].numberToken.value in {2, 3, 4, 5, 6, 8, 9, 10, 11, 12}
  {
    hide ValidTopology, KnownOccupancy, WithinLimits, Spaced, AllAnchored;
  }

  lemma EdgeIsFree(b: BoardState, players: set<PlayerId>, e: EdgeId)
    requires BoardInv(b, players) && e in b.topology.edges
    ensures b.topology.edges[e].a !in b.buildings || b.topology.edges[e].b !in b.buildings
  {
    hide ValidContents, AllAnchored, WithinLimits;
    assert ValidEdge(b.topology, e);
  }

  // The last roll is a roll of two dice; there is one in the action phase, none before the roll,
  // and a seven before discards. Whoever has not discarded yet owes half of the hand. An offer on
  // the table is between the current player and another, in the action phase, and the one who made
  // it still has the cards.
  lemma TurnsAreCoherent(s: GameState)
    requires Reachable(s) && s.turn.phase != SetupSettlement && s.turn.phase != SetupRoad
    ensures s.turn.lastRoll.Some? ==>
              var roll := s.turn.lastRoll.value;
              1 <= roll.first <= 6 && 1 <= roll.second <= 6 && roll.total == roll.first + roll.second
    ensures s.turn.phase == Action ==> s.turn.lastRoll.Some?
    ensures s.turn.phase == RollRequired ==> s.turn.lastRoll.None?
    ensures s.turn.phase == DiscardRequired ==>
              && s.turn.lastRoll.Some? && s.turn.lastRoll.value.total == 7 && s.pending.Some? && s.pending.value.DiscardResources?
              && forall p :: p in s.pending.value.required && p !in s.pending.value.completed ==> OwesHalf(s, p, s.pending.value.required[p])
    ensures s.pending.Some? && s.pending.value.RespondToTrade? ==> OfferStands(s, s.pending.value)
  {
    hide Reachable, TradingAsserts, CardAsserts, BoardInv, OwesHalf, OfferStands;
    Reached(s);
    RollIs(s);
    if s.turn.phase == DiscardRequired {
      OwedIs(s);
    }
    if s.pending.Some? && s.pending.value.RespondToTrade? {
      OfferIs(s);
    }
  }

  predicate OwesHalf(s: GameState, p: PlayerId, owed: int) {
    p in s.players && 2 * owed <= s.players[p].resources.Total() <= 2 * owed + 1
  }

  predicate OfferStands(s: GameState, pending: Pending)
    requires pending.RespondToTrade?
  {
    var offer := pending.offer;
    && s.turn.phase == Action && offer.initiator == s.turn.current && offer.counterparty != offer.initiator
    && offer.initiator in s.players && offer.counterparty in s.players
    && (if pending.counterDepth == 0 then
          && offer.proposedBy == offer.initiator && pending.responder == offer.counterparty
          && s.players[offer.initiator].resources.Covers(offer.initiatorGives)
        else
          && offer.proposedBy == offer.counterparty && pending.responder == offer.initiator
          && s.players[offer.counterparty].resources.Covers(offer.counterpartyGives))
  }

  lemma OfferIs(s: GameState)
    requires hide *; TradingAsserts(s) && s.pending.Some? && s.pending.value.RespondToTrade?
    ensures OfferStands(s, s.pending.value)
  {
    hide CardAsserts, NonBlank, ValidBundles, Overlaps, Bag.Covers;
  }

  lemma RollIs(s: GameState)
    requires hide *; CardAsserts(s) && s.turn.phase != SetupSettlement && s.turn.phase != SetupRoad
    ensures s.turn.lastRoll.Some? ==>
              var roll := s.turn.lastRoll.value;
              1 <= roll.first <= 6 && 1 <= roll.second <= 6 && roll.total == roll.first + roll.second
    ensures s.turn.phase == Action ==> s.turn.lastRoll.Some?
    ensures s.turn.phase == RollRequired ==> s.turn.lastRoll.None?
    ensures s.turn.phase == DiscardRequired ==> s.turn.lastRoll.Some? && s.turn.lastRoll.value.total == 7
  {
    hide ValidTopology, ValidContents, KnownOccupancy, HandsComplete, CombinedSupply, WithinLimits, EligibleTargets, NoDuplicateCards,
      FilterOrder, PendingNamesKnown;
  }

  lemma OwedIs(s: GameState)
    requires hide *; CardAsserts(s) && s.turn.phase == DiscardRequired
    ensures s.pending.Some? && s.pending.value.DiscardResources?
    ensures forall p :: p in s.pending.value.required && p !in s.pending.value.completed ==> OwesHalf(s, p, s.pending.value.required[p])
  {
    hide ValidTopology, ValidContents, KnownOccupancy, HandsComplete, CombinedSupply, WithinLimits, EligibleTargets, NoDuplicateCards,
      FilterOrder, Bag.Total;
    forall p | p in s.pending.value.required && p !in s.pending.value.completed
      ensures OwesHalf(s, p, s.pending.value.required[p])
    {
      assert p !in set q | q in s.pending.value.completed;
    }
  }

  // Where a card can be.
  datatype Place = InDeck(k: nat) | Held(p: PlayerId, k: nat)

  predicate IsPlace(s: GameState, place: Place) {
    match place
    case InDeck(k) => k < |s.bank.deck|
    case Held(p, k) => p in s.players && k < |s.players[p].cards|
  }

  function IdAt(s: GameState, place: Place): int
    requires IsPlace(s, place)
  {
    match place
    case InDeck(k) => s.bank.deck[k].id
    case Held(p, k) => s.players[p].cards[k].id
  }

  predicate IsSomewhere(s: GameState, id: int) {
    || (exists k :: 0 <= k < |s.bank.deck| && s.bank.deck[k].id == id)
    || (exists p, k :: p in s.players && 0 <= k < |s.players[p].cards| && s.players[p].cards[k].id == id)
  }

  lemma {:induction false} DeckPlace(deck: seq<CardDefinition>, id: int) returns (k: nat)
    requires DeckIds(deck)[id] >= 1
    ensures k < |deck| && deck[k].id == id
  {
    if deck[0].id == id {
      k := 0;
    } else {
      k := DeckPlace(deck[1..], id);
      k := k + 1;
    }
  }

  lemma {:induction false} DeckCount(deck: seq<CardDefinition>, i: nat)
    requires i < |deck|
    ensures DeckIds(deck)[deck[i].id] >= 1
    ensures forall j :: 0 <= j < |deck| && j != i && deck[j].id == deck[i].id ==> DeckIds(deck)[deck[i].id] >= 2
  {
    if i > 0 {
      assert deck[1..][i - 1] == deck[i];
      DeckCount(deck[1..], i - 1);
      forall j | 0 <= j < |deck| && j != i && deck[j].id == deck[i].id ensures DeckIds(deck)[deck[i].id] >= 2 {
        if j > 0 {
          assert deck[1..][j - 1] == deck[j];
        }
      }
    } else {
      forall j | 0 <= j < |deck| && j != i && deck[j].id == deck[i].id ensures DeckIds(deck)[deck[i].id] >= 2 {
        assert deck[1..][j - 1] == deck[j];
        DeckCount(deck[1..], j - 1);
      }
    }
  }

  lemma {:induction false} HandPlace(cards: seq<OwnedCard>, id: int) returns (k: nat)
    requires CardIds(cards)[id] >= 1
    ensures k < |cards| && cards[k].id == id
  {
    if cards[0].id == id {
      k := 0;
    } else {
      k := HandPlace(cards[1..], id);
      k := k + 1;
    }
  }

  lemma {:induction false} HandCount(cards: seq<OwnedCard>, i: nat)
    requires i < |cards|
    ensures CardIds(cards)[cards[i].id] >= 1
    ensures forall j :: 0 <= j < |cards| && j != i && cards[j].id == cards[i].id ==> CardIds(cards)[cards[i].id] >= 2
  {
    if i > 0 {
      assert cards[1..][i - 1] == cards[i];
      HandCount(cards[1..], i - 1);
      forall j | 0 <= j < |cards| && j != i && cards[j].id == cards[i].id ensures CardIds(cards)[cards[i].id] >= 2 {
        if j > 0 {
          assert cards[1..][j - 1] == cards[j];
        }
      }
    } else {
      forall j | 0 <= j < |cards| && j != i && cards[j].id == cards[i].id ensures CardIds(cards)[cards[i].id] >= 2 {
        assert cards[1..][j - 1] == cards[j];
        HandCount(cards[1..], j - 1);
      }
    }
  }

  lemma {:induction false} HolderOf(order: seq<PlayerId>, holdings: map<PlayerId, Holding>, id: int) returns (p: PlayerId)
    requires forall q :: q in order ==> q in holdings
    requires HeldIds(order, holdings)[id] >= 1
    ensures p in order && CardIds(holdings[p].cards)[id] >= 1
  {
    assert order[0] in order;
    if CardIds(holdings[order[0]].cards)[id] >= 1 {
      p := order[0];
    } else {
      p := HolderOf(order[1..], holdings, id);
    }
  }

  lemma {:induction false} TwoHolders(order: seq<PlayerId>, holdings: map<PlayerId, Holding>, p: PlayerId, q: PlayerId, id: int)
    requires (forall r :: r in order ==> r in holdings) && p in order && q in order
    ensures HeldIds(order, holdings)[id] >= CardIds(holdings[p].cards)[id]
    ensures p != q ==> HeldIds(order, holdings)[id] >= CardIds(holdings[p].cards)[id] + CardIds(holdings[q].cards)[id]
  {
    assert order[0] in order;
    if order[0] != p && order[0] != q {
      TwoHolders(order[1..], holdings, p, q, id);
    } else if order[0] == p && p != q {
      TwoHolders(order[1..], holdings, q, q, id);
    } else if order[0] == q && p != q {
      TwoHolders(order[1..], holdings, p, p, id);
    }
  }

  lemma StandardCount(id: int)
    ensures StandardIds()[id] == if 0 <= id < 25 then 1 else 0
  {
    IdsBelowCount(25, id);
  }

  lemma CardsAreStandard(s: GameState)
    requires CardAsserts(s) && forall p :: p in s.playerOrder <==> p in s.players
    ensures AllCardIds(s.playerOrder, HoldingsOf(s.players), s.bank.deck) == StandardIds()
    ensures ValidDeck(s.bank.deck)
    ensures forall p :: p in s.players ==> ValidHolding(Holding(s.players[p].cards, s.players[p].playedKnights), s.turn.turnNumber)
  {
    hide ScoringAsserts, AllCardIds, ValidDeck, ValidHolding, PendingCoherent;
    forall p | p in s.players
      ensures ValidHolding(Holding(s.players[p].cards, s.players[p].playedKnights), s.turn.turnNumber)
    {
      assert ValidHolding(HoldingsOf(s.players)[p], s.turn.turnNumber);
    }
  }

  lemma CardIsSomewhere(s: GameState, id: int)
    requires hide *; Reachable(s) && 0 <= id < 25
    ensures IsSomewhere(s, id)
  {
    hide Reachable, DeckIds, HeldIds, CardIds, StandardIds, ValidDeck, ValidHolding, Distinct, CardAsserts, TradingAsserts, BoardInv;
    Reached(s);
    CardsAreStandard(s);
    StandardCount(id);
    if DeckIds(s.bank.deck)[id] >= 1 {
      var k := DeckPlace(s.bank.deck, id);
    } else {
      var p := HolderOf(s.playerOrder, HoldingsOf(s.players), id);
      var k := HandPlace(s.players[p].cards, id);
    }
  }

  lemma CardIsOnce(s: GameState, x: Place, y: Place)
    requires hide *; Reachable(s) && IsPlace(s, x) && IsPlace(s, y) && IdAt(s, x) == IdAt(s, y)
    ensures x == y
  {
    hide Reachable, DeckIds, HeldIds, CardIds, StandardIds, ValidDeck, ValidHolding, Distinct, CardAsserts, TradingAsserts, BoardInv;
    Reached(s);
    CardsAreStandard(s);
    var id := IdAt(s, x);
    StandardCount(id);
    var holdings := HoldingsOf(s.players);
    if x.InDeck? {
      DeckCount(s.bank.deck, x.k);
    } else {
      HandCount(s.players[x.p].cards, x.k);
      TwoHolders(s.playerOrder, holdings, x.p, x.p, id);
    }
    if y.InDeck? {
      DeckCount(s.bank.deck, y.k);
    } else {
      HandCount(s.players[y.p].cards, y.k);
      TwoHolders(s.playerOrder, holdings, y.p, y.p, id);
    }
    if x.Held? && y.Held? {
      TwoHolders(s.playerOrder, holdings, x.p, y.p, id);
    }
  }

  // Each of the twenty-five cards is in exactly one place.
  lemma EveryCardIsOnce(s: GameState)
    requires Reachable(s)
    ensures forall id :: 0 <= id < 25 ==> IsSomewhere(s, id)
    ensures forall x, y :: IsPlace(s, x) && IsPlace(s, y) && IdAt(s, x) == IdAt(s, y) ==> x == y
  {
    hide Reachable, IsPlace, IdAt;
    forall id | 0 <= id < 25 ensures IsSomewhere(s, id) {
      CardIsSomewhere(s, id);
    }
    forall x, y | IsPlace(s, x) && IsPlace(s, y) && IdAt(s, x) == IdAt(s, y) ensures x == y {
      CardIsOnce(s, x, y);
    }
  }

  function PlayedKnights(cards: seq<OwnedCard>): set<nat> {
    set k | 0 <= k < |cards| && cards[k].kind == Knight && cards[k].status == Played
  }

  lemma {:induction false} KnightsAre(cards: seq<OwnedCard>)
    ensures PlayedKnightCount(cards) == |PlayedKnights(cards)|
    decreases |cards|
  {
    if cards != [] {
      var (rest, card) := (cards[..|cards| - 1], cards[|cards| - 1]);
      KnightsAre(rest);
      assert cards == rest + [card];
      AppendCounts(rest, card);
      var added: set<nat> := if card.kind == Knight && card.status == Played then {|rest|} else {};
      assert PlayedKnights(cards) == PlayedKnights(rest) + added;
    }
  }

  // A held card is of its standard kind, was acquired by now, and is face up only as its kind
  // allows; the Knights a player has played are counted.
  lemma HeldCardsAre(s: GameState, p: PlayerId)
    requires Reachable(s) && p in s.players
    ensures forall k :: 0 <= k < |s.players[p].cards| ==>
              var card := s.players[p].cards[k];
              && 0 <= card.id < 25 && card.kind == StandardKind(card.id) && 0 <= card.acquired <= s.turn.turnNumber
              && (card.status == Revealed ==> card.kind == VictoryPoint) && (card.status == Played ==> card.kind != VictoryPoint)
    ensures s.players[p].playedKnights == |PlayedKnights(s.players[p].cards)|
  {
    hide Reachable, AllCardIds, StandardIds, ValidDeck, Distinct, PlayedKnightCount, StandardKind, CardAsserts, TradingAsserts, BoardInv;
    Reached(s);
    CardsAreStandard(s);
    KnightsAre(s.players[p].cards);
    assert ValidHolding(Holding(s.players[p].cards, s.players[p].playedKnights), s.turn.turnNumber);
  }
}
