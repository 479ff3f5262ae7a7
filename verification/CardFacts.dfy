// How card operations act on identities, counts and points.

module CardFacts {
  import opened Board
  import opened Bags
  import opened GameModel
  import opened LongestRoad
  import opened Rules
  import opened Assertions
  import opened Engine
  import opened Invariants
  import opened InvariantsImplyAssertions

  lemma {:induction false} RevealIds(cards: seq<OwnedCard>)
    ensures CardIds(RevealPoints(cards)) == CardIds(cards)
  {
    if cards != [] {
      RevealIds(cards[1..]);
      assert RevealPoints(cards)[1..] == RevealPoints(cards[1..]);
    }
  }

  // Revealing Victory Point cards keeps identities, Knights and points, and hides none.
  lemma {:induction false} RevealFacts(cards: seq<OwnedCard>)
    ensures CardIds(RevealPoints(cards)) == CardIds(cards)
    ensures PlayedKnightCount(RevealPoints(cards)) == PlayedKnightCount(cards)
    ensures CardPoints(RevealPoints(cards)) == CardPoints(cards)
    ensures NoHiddenPoints(RevealPoints(cards))
  {
    RevealIds(cards);
    hide CardIds;
    if cards != [] {
      RevealFacts(cards[1..]);
      assert RevealPoints(cards)[1..] == RevealPoints(cards[1..]);
    }
  }

  lemma RevealValid(cards: seq<OwnedCard>, turnNumber: int)
    requires ValidHolding(Holding(cards, PlayedKnightCount(cards)), turnNumber)
    ensures ValidHolding(Holding(RevealPoints(cards), PlayedKnightCount(cards)), turnNumber)
  {
    RevealFacts(cards);
  }

  ghost predicate UniqueIds(cards: seq<OwnedCard>) {
    forall i, j :: 0 <= i < j < |cards| ==> cards[i].id != cards[j].id
  }

  lemma {:induction false} CardIdsAt(cards: seq<OwnedCard>, i: int)
    requires 0 <= i < |cards|
    ensures CardIds(cards)[cards[i].id] >= 1
  {
    if i > 0 {
      CardIdsAt(cards[1..], i - 1);
    }
  }

  lemma {:induction false} UniqueFromCount(cards: seq<OwnedCard>)
    requires forall id: int :: CardIds(cards)[id] <= 1
    ensures UniqueIds(cards)
  {
    if cards != [] {
      forall id: int ensures CardIds(cards[1..])[id] <= 1 {
        assert CardIds(cards)[id] <= 1;
      }
      UniqueFromCount(cards[1..]);
      forall j | 1 <= j < |cards| ensures cards[0].id != cards[j].id {
        assert CardIds(cards)[cards[0].id] <= 1;
        CardIdsAt(cards[1..], j - 1);
      }
    }
  }

  lemma {:induction false} FindFacts(cards: seq<OwnedCard>, id: int) returns (i: int)
    requires FindCard(cards, id).Some?
    ensures 0 <= i < |cards| && cards[i] == FindCard(cards, id).value && cards[i].id == id
  {
    if cards[0].id == id {
      i := 0;
    } else {
      i := FindFacts(cards[1..], id);
      i := i + 1;
    }
  }

  lemma {:induction false} FindUnique(cards: seq<OwnedCard>, i: int)
    requires UniqueIds(cards) && 0 <= i < |cards|
    ensures FindCard(cards, cards[i].id) == Some(cards[i])
  {
    if i > 0 {
      assert cards[0].id != cards[i].id;
      FindUnique(cards[1..], i - 1);
    }
  }

  // Changing one card's status in place.

  lemma {:induction false} UpdateCounts(cards: seq<OwnedCard>, i: int, card: OwnedCard)
    requires 0 <= i < |cards| && card.id == cards[i].id
    ensures CardIds(cards[i := card]) == CardIds(cards)
    ensures PlayedKnightCount(cards[i := card])
         == PlayedKnightCount(cards) - PlayedKnightCount([cards[i]]) + PlayedKnightCount([card])
    ensures CardPoints(cards[i := card]) == CardPoints(cards) - CardPoints([cards[i]]) + CardPoints([card])
  {
    if i > 0 {
      UpdateCounts(cards[1..], i - 1, card);
      assert cards[i := card][1..] == cards[1..][i - 1 := card];
    } else {
      assert cards[i := card][1..] == cards[1..];
    }
  }

  lemma ReplaceIsUpdate(cards: seq<OwnedCard>, i: int, status: CardStatus)
    requires UniqueIds(cards) && 0 <= i < |cards|
    ensures ReplaceStatus(cards, cards[i].id, status) == cards[i := cards[i].(status := status)]
  {
  }

  // Playing a card in hand: identities and points stay, a Knight counts once more.
  lemma PlayFacts(cards: seq<OwnedCard>, id: int, turnNumber: int)
    requires UniqueIds(cards) && FindCard(cards, id).Some?
    requires ValidHolding(Holding(cards, PlayedKnightCount(cards)), turnNumber)
    requires FindCard(cards, id).value.status == InHand && FindCard(cards, id).value.kind != VictoryPoint
    ensures var card, after := FindCard(cards, id).value, ReplaceStatus(cards, id, Played);
            && card.id == id
            && CardIds(after) == CardIds(cards)
            && PlayedKnightCount(after) == PlayedKnightCount(cards) + (if card.kind == Knight then 1 else 0)
            && CardPoints(after) == CardPoints(cards)
            && ValidHolding(Holding(after, PlayedKnightCount(after)), turnNumber)
            && FindCard(after, id) == Some(card.(status := Played))
  {
    var i := FindFacts(cards, id);
    var played := cards[i].(status := Played);
    ReplaceIsUpdate(cards, i, Played);
    UpdateCounts(cards, i, played);
    FindUnique(cards[i := played], i);
  }

  lemma {:induction false} AppendIds(cards: seq<OwnedCard>, card: OwnedCard)
    ensures CardIds(cards + [card]) == CardIds(cards) + multiset{card.id}
  {
    if cards == [] {
      assert cards + [card] == [card];
      assert CardIds([card][1..]) == multiset{};
    } else {
      AppendIds(cards[1..], card);
      assert (cards + [card])[1..] == cards[1..] + [card];
    }
  }

  lemma {:induction false} AppendCounts(cards: seq<OwnedCard>, card: OwnedCard)
    ensures PlayedKnightCount(cards + [card]) == PlayedKnightCount(cards) + PlayedKnightCount([card])
    ensures CardPoints(cards + [card]) == CardPoints(cards) + CardPoints([card])
  {
    if cards == [] {
      assert cards + [card] == [card];
    } else {
      AppendCounts(cards[1..], card);
      assert (cards + [card])[1..] == cards[1..] + [card];
    }
  }

  // Identities over all hands.

  lemma {:induction false} HeldElsewhere(order: seq<PlayerId>, holdings: map<PlayerId, Holding>, p: PlayerId, h: Holding)
    requires forall q :: q in order ==> q in holdings
    requires p !in order
    ensures HeldIds(order, holdings[p := h]) == HeldIds(order, holdings)
  {
    if order != [] {
      HeldElsewhere(order[1..], holdings, p, h);
    }
  }

  lemma {:induction false} HeldUpdate(order: seq<PlayerId>, holdings: map<PlayerId, Holding>, p: PlayerId, h: Holding, extra: multiset<int>)
    requires forall q :: q in order ==> q in holdings
    requires Distinct(order) && p in order
    requires CardIds(h.cards) == CardIds(holdings[p].cards) + extra
    ensures HeldIds(order, holdings[p := h]) == HeldIds(order, holdings) + extra
  {
    if order[0] == p {
      HeldElsewhere(order[1..], holdings, p, h);
    } else {
      HeldUpdate(order[1..], holdings, p, h, extra);
    }
  }

  lemma {:induction false} HeldContains(order: seq<PlayerId>, holdings: map<PlayerId, Holding>, p: PlayerId)
    requires forall q :: q in order ==> q in holdings
    requires p in order
    ensures CardIds(holdings[p].cards) <= HeldIds(order, holdings)
  {
    if order[0] != p {
      HeldContains(order[1..], holdings, p);
    }
  }

  // In a valid distribution no player holds a card twice.
  lemma HandsAreUnique(order: seq<PlayerId>, holdings: map<PlayerId, Holding>, deck: seq<CardDefinition>, turnNumber: int, p: PlayerId)
    requires CardInv(order, holdings, deck, turnNumber) && p in order
    ensures UniqueIds(holdings[p].cards)
  {
    hide IdsBelow, HeldIds, DeckIds, CardIds;
    HeldContains(order, holdings, p);
    forall id: int ensures CardIds(holdings[p].cards)[id] <= 1 {
      IdsBelowCount(STANDARD_DECK_SIZE, id);
      assert CardIds(holdings[p].cards)[id] <= AllCardIds(order, holdings, deck)[id];
    }
    UniqueFromCount(holdings[p].cards);
  }

  lemma CardInvReplace(order: seq<PlayerId>, holdings: map<PlayerId, Holding>, deck: seq<CardDefinition>, turnNumber: int, p: PlayerId, h: Holding)
    requires CardInv(order, holdings, deck, turnNumber) && Distinct(order) && p in order
    requires ValidHolding(h, turnNumber) && CardIds(h.cards) == CardIds(holdings[p].cards)
    ensures CardInv(order, holdings[p := h], deck, turnNumber)
  {
    hide IdsBelow, HeldIds, DeckIds, CardIds, ValidHolding;
    HeldUpdate(order, holdings, p, h, multiset{});
  }

  lemma BoughtCardIsValid(h: Holding, top: CardDefinition, turnNumber: int)
    requires ValidHolding(h, turnNumber) && turnNumber >= 0
    requires 0 <= top.id < STANDARD_DECK_SIZE && top.kind == StandardKind(top.id)
    ensures ValidHolding(Holding(h.cards + [OwnedCard(top.id, top.kind, turnNumber, InHand)], h.playedKnights), turnNumber)
  {
    var card := OwnedCard(top.id, top.kind, turnNumber, InHand);
    AppendCounts(h.cards, card);
    assert PlayedKnightCount([card]) == 0;
  }

  lemma CardInvBuy(order: seq<PlayerId>, holdings: map<PlayerId, Holding>, deck: seq<CardDefinition>, turnNumber: int, p: PlayerId)
    requires CardInv(order, holdings, deck, turnNumber) && Distinct(order) && p in order
    requires deck != [] && turnNumber >= 0
    ensures var cards := holdings[p].cards + [OwnedCard(deck[0].id, deck[0].kind, turnNumber, InHand)];
            CardInv(order, holdings[p := Holding(cards, holdings[p].playedKnights)], deck[1..], turnNumber)
  {
    hide IdsBelow, HeldIds, CardIds, ValidHolding, PlayedKnightCount;
    var card := OwnedCard(deck[0].id, deck[0].kind, turnNumber, InHand);
    var h := Holding(holdings[p].cards + [card], holdings[p].playedKnights);
    BoughtCardIsValid(holdings[p], deck[0], turnNumber);
    AppendIds(holdings[p].cards, card);
    HeldUpdate(order, holdings, p, h, multiset{deck[0].id});
    assert DeckIds(deck) == multiset{deck[0].id} + DeckIds(deck[1..]);
    assert AllCardIds(order, holdings[p := h], deck[1..]) == AllCardIds(order, holdings, deck);
  }

  lemma CardInvLater(order: seq<PlayerId>, holdings: map<PlayerId, Holding>, deck: seq<CardDefinition>, turnNumber: int, later: int)
    requires CardInv(order, holdings, deck, turnNumber) && turnNumber <= later
    ensures CardInv(order, holdings, deck, later)
  {
    hide IdsBelow, HeldIds, DeckIds, CardIds;
    forall p | p in order ensures ValidHolding(holdings[p], later) {
      assert ValidHolding(holdings[p], turnNumber);
    }
  }
}
