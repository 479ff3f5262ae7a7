// The invariant implies every runtime assertion; awards and victory keep it.

module InvariantsImplyAssertions {
  import opened Board
  import opened Bags
  import opened GameModel
  import opened LongestRoad
  import opened SeededRandom
  import opened Production
  import opened Rules
  import opened Assertions
  import opened Engine
  import opened Invariants

  lemma CoreImpliesSetup(s: GameState)
    requires CoreInv(s)
    ensures SetupAsserts(s)
  {
    hide LongestRoadLength, EligibleTargets, ActualPoints, SumHands, AllCardIds, FindCard;
    OpenCore(s);
  }

  lemma {:induction false} FilterOrderFacts(order: seq<PlayerId>, chosen: set<PlayerId>)
    requires Distinct(order)
    ensures Distinct(FilterOrder(order, chosen))
    ensures forall p :: p in FilterOrder(order, chosen) <==> p in order && p in chosen
  {
    if order != [] {
      FilterOrderFacts(order[1..], chosen);
    }
  }

  lemma {:induction false} EligibleTargetFacts(
    b: BoardState, players: map<PlayerId, PlayerState>, order: seq<PlayerId>, tile: TileId, actor: PlayerId)
    requires tile in b.topology.tiles
    requires forall p :: p in order ==> p in players
    ensures forall p :: p in EligibleTargets(b, players, order, tile, actor) <==>
              p in order && p != actor && TileTouches(b, tile, p) && players[p].resources.Total() > 0
  {
    hide TileTouches;
    if order != [] {
      EligibleTargetFacts(b, players, order[1..], tile, actor);
    }
  }

  lemma PendingNames(s: GameState)
    requires hide *; CoreInv(s) && s.pending.Some?
    ensures PendingNamesKnown(s.pending.value, s.players.Keys)
  {
    hide ValidTopology, KnownOccupancy, WithinLimits, Spaced, AllAnchored, ResourceInv, CardInv, SetupInv, TurnInv,
      FilterOrder, EligibleTargets, ActualPoints, HasLegalFreeRoad;
    OpenCore(s);
    if s.turn.phase == DiscardRequired {
      FilterOrderFacts(s.playerOrder, set p | p in s.pending.value.completed);
    } else if s.turn.phase == RobberTargetRequired {
      EligibleTargetFacts(s.board, s.players, s.playerOrder, s.board.robberTileId, s.turn.current);
    }
  }

  lemma CoreImpliesNormal(s: GameState)
    requires CoreInv(s)
    ensures NormalAsserts(s)
  {
    hide ValidTopology, ValidContents, KnownOccupancy, WithinLimits, Spaced, AllAnchored, CardInv, SumHands,
      EligibleTargets, ActualPoints, HasLegalFreeRoad, FilterOrder, PlayedReference, TradeCoherent, PendingNamesKnown;
    OpenCore(s);
    if InSetup(s) {
      CoreImpliesSetup(s);
    } else if s.pending.Some? {
      PendingNames(s);
    }
  }

  lemma CoreImpliesRobber(s: GameState)
    requires CoreInv(s)
    ensures RobberAsserts(s)
  {
    OpenCore(s);
    CoreImpliesNormal(s);
    hide NormalAsserts, BoardInv, CardInv, SumHands, SetupInv, TurnInv, EligibleTargets, FilterOrder, PlayedReference,
      TradeCoherent, ActionInv, MoveInv, TargetInv, FreeRoadInv, OverInv, EffectInv;
  }

  lemma CoreImpliesPaid(s: GameState)
    requires CoreInv(s)
    ensures PaidAsserts(s)
  {
    OpenCore(s);
    CoreImpliesRobber(s);
    hide RobberAsserts, ValidTopology, ValidContents, Spaced, AllAnchored, CardInv, SumHands, PhaseInv, SetupInv, TurnInv;
  }

  lemma OneMoreId(n: nat)
    ensures IdsBelow(0) == multiset{} && IdsBelow(n + 1) == IdsBelow(n) + multiset{n}
  {
    assert seq(n + 1, i => i) == seq(n, i => i) + [n];
    assert seq(0, i => i) == [];
  }

  lemma {:induction false} IdsBelowCount(n: nat, id: int)
    ensures IdsBelow(n)[id] == if 0 <= id < n then 1 else 0
  {
    hide IdsBelow;
    OneMoreId(if n > 0 then n - 1 else 0);
    if n > 0 {
      IdsBelowCount(n - 1, id);
    }
  }

  lemma CardsAreUnique(s: GameState)
    requires FourPlayers(s)
    requires CardInv(s.playerOrder, HoldingsOf(s.players), s.bank.deck, s.turn.turnNumber)
    ensures NoDuplicateCards(s)
  {
    hide IdsBelow, HeldIds, DeckIds;
    forall id: int ensures StandardIds()[id] <= 1 {
      IdsBelowCount(STANDARD_DECK_SIZE, id);
    }
  }

  // A finished game has a current-player winner with the points and no hidden point card.
  lemma WinnerFacts(s: GameState)
    requires hide *; CoreInv(s)
    ensures s.winner.None? ==> s.turn.phase != GameOver
    ensures s.winner.Some? ==>
              && s.winner.value in s.players && s.turn.phase == GameOver && s.winner.value == s.turn.current
              && s.pending.None? && ActualPoints(s, s.winner.value) >= VICTORY_TARGET
              && NoHiddenPoints(s.players[s.winner.value].cards)
  {
    hide ValidTopology, KnownOccupancy, WithinLimits, Spaced, AllAnchored, ResourceInv, CardInv, SetupInv, TurnInv,
      FilterOrder, EligibleTargets, HasLegalFreeRoad, NoHiddenPoints, Points;
    OpenCore(s);
  }

  lemma CoreImpliesInput(s: GameState)
    requires hide *; CoreInv(s)
    requires s.awards.longestRoad.Some? ==> s.awards.longestRoad.value in s.players
    requires s.awards.largestArmy.Some? ==> s.awards.largestArmy.value in s.players
    ensures ScoringInputAsserts(s)
  {
    OpenCore(s);
    CoreImpliesPaid(s);
    CardsAreUnique(s);
    HoldingFacts(s);
    WinnerFacts(s);
    hide CoreInv, PaidAsserts, NoDuplicateCards, ActualPoints, NoHiddenPoints;
    assert FourPlayers(s) by {
      FourFromCore(s);
    }
  }

  lemma FourFromCore(s: GameState)
    requires CoreInv(s)
    ensures FourPlayers(s)
  {
    OpenCore(s);
  }

  lemma HoldingFacts(s: GameState)
    requires FourPlayers(s)
    requires CardInv(s.playerOrder, HoldingsOf(s.players), s.bank.deck, s.turn.turnNumber)
    ensures forall p :: p in s.players ==> s.players[p].playedKnights >= 0
    ensures forall p, i :: p in s.players && 0 <= i < |s.players[p].cards| ==>
              !(s.players[p].cards[i].kind == VictoryPoint && s.players[p].cards[i].status == Played)
  {
    forall p | p in s.players
      ensures ValidHolding(HoldingsOf(s.players)[p], s.turn.turnNumber)
    {
    }
  }

  lemma AwardsAreHeldByLeaders(s: GameState)
    requires FourPlayers(s) && AwardInv(s)
    requires forall p :: p in s.players ==> s.players[p].playedKnights >= 0
    ensures s.awards.longestRoad.Some? ==>
              && s.awards.longestRoad.value in s.players
              && LongestRoadLength(s.board, s.awards.longestRoad.value) >= LONGEST_ROAD_MINIMUM
              && forall p :: p in s.playerOrder ==>
                   LongestRoadLength(s.board, p) <= LongestRoadLength(s.board, s.awards.longestRoad.value)
    ensures s.awards.largestArmy.Some? ==>
              && s.awards.largestArmy.value in s.players
              && s.players[s.awards.largestArmy.value].playedKnights >= LARGEST_ARMY_MINIMUM
              && forall p :: p in s.playerOrder ==>
                   s.players[p].playedKnights <= s.players[s.awards.largestArmy.value].playedKnights
  {
    hide LongestRoadLength, DeriveHolder;
    OpenAwards(s);
    HolderLeads(s.playerOrder, RoadLengths(s), s.awards.longestRoad, LONGEST_ROAD_MINIMUM);
    HolderLeads(s.playerOrder, KnightCounts(s), s.awards.largestArmy, LARGEST_ARMY_MINIMUM);
    forall p | p in s.playerOrder
      ensures RoadLengths(s)[p] == LongestRoadLength(s.board, p) && KnightCounts(s)[p] == s.players[p].playedKnights
    {
    }
  }

  lemma SafeImpliesScoring(s: GameState)
    requires CoreInv(s) && AwardInv(s)
    ensures ScoringAsserts(s)
  {
    OpenCore(s);
    HoldingFacts(s);
    AwardsAreHeldByLeaders(s);
    CoreImpliesInput(s);
    hide ScoringInputAsserts, CoreInv, LongestRoadLength;
  }

  lemma PendingIsCoherent(s: GameState)
    requires CoreInv(s)
    ensures PendingCoherent(s) && TradeCoherent(s.players, s.turn, s.pending, s.winner)
    ensures s.winner.Some? || s.turn.phase == GameOver ==> s.pending.None?
  {
    hide BoardInv, ResourceInv, CardInv, SetupInv, TurnInv, FilterOrder, EligibleTargets, ActualPoints, HasLegalFreeRoad,
      PlayedReference, PendingNamesKnown;
    OpenCore(s);
  }

  // The invariant implies the top of the assertion stack.
  lemma SafeImpliesTrading(s: GameState)
    requires CoreInv(s) && AwardInv(s)
    ensures TradingAsserts(s)
  {
    OpenCore(s);
    SafeImpliesScoring(s);
    PendingIsCoherent(s);
    hide ScoringAsserts, BoardInv, ResourceInv, SetupInv, TurnInv, PhaseInv, PendingCoherent, TradeCoherent;
  }

  lemma DerivedAwardsAreFixed(s: GameState)
    requires FourPlayers(s)
    ensures AwardInv(s.(awards := DerivedAwards(s)))
  {
    hide DeriveHolder, LongestRoadLength;
    var after := s.(awards := DerivedAwards(s));
    DeriveIsIdempotent(s.playerOrder, RoadLengths(s), s.awards.longestRoad, LONGEST_ROAD_MINIMUM);
    DeriveIsIdempotent(s.playerOrder, KnightCounts(s), s.awards.largestArmy, LARGEST_ARMY_MINIMUM);
    assert RoadLengths(after) == RoadLengths(s) && KnightCounts(after) == KnightCounts(s);
  }

  // Reconciling awards never throws and re-establishes the award invariant.
  lemma ReconcileKeepsCore(s: GameState)
    requires hide *; CoreInv(s) && s.turn.phase != GameOver
    requires s.awards.longestRoad.Some? ==> s.awards.longestRoad.value in s.players
    requires s.awards.largestArmy.Some? ==> s.awards.largestArmy.value in s.players
    ensures ReconcileAwards(s) == Accepted(s.(awards := DerivedAwards(s)))
    ensures CoreInv(s.(awards := DerivedAwards(s))) && AwardInv(s.(awards := DerivedAwards(s)))
  {
    OpenCore(s);
    var after := s.(awards := DerivedAwards(s));
    CoreImpliesInput(s);
    CoreIgnoresAwards(s, DerivedAwards(s));
    FourFromCore(s);
    DerivedAwardsAreFixed(s);
    SafeImpliesScoring(after);
    hide CoreInv, AwardInv, ScoringInputAsserts, ScoringAsserts, DerivedAwards;
  }

  lemma CoreIgnoresAwards(s: GameState, awards: Awards)
    requires CoreInv(s) && s.turn.phase != GameOver
    ensures CoreInv(s.(awards := awards))
  {
    hide BoardInv, ResourceInv, CardInv, SetupInv, TurnInv, SetupPhaseInv, ActionInv, EffectInv, DiscardInv, MoveInv,
      TargetInv, FreeRoadInv, Distinct;
    OpenCore(s);
  }
}
