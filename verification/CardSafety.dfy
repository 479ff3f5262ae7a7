// Development cards keep the invariant and never throw, victory in mid-effect included.

module CardSafety {
  import opened Board
  import opened Bags
  import opened GameModel
  import opened LongestRoad
  import opened SeededRandom
  import opened Production
  import opened Rules
  import opened Assertions
  import opened Engine
  import opened Invariants
  import opened InvariantsImplyAssertions
  import opened Geometry
  import opened Frames
  import opened Transfers
  import opened Victory
  import opened RobberSafety
  import opened CardFacts
  import opened BuildSafety

  // Buying.

  lemma BuyMaps(s: GameState, actor: PlayerId)
    requires actor in s.players && s.bank.deck != []
    ensures var n, top, player := AfterBuy(s, actor), s.bank.deck[0], s.players[actor];
            && n.players.Keys == s.players.Keys
            && HandsOf(n.players) == HandsOf(s.players)[actor := player.resources.Minus(CARD_COST)]
            && HoldingsOf(n.players)
               == HoldingsOf(s.players)[actor := Holding(player.cards + [OwnedCard(top.id, top.kind, s.turn.turnNumber, InHand)],
                                                         player.playedKnights)]
            && HandsOf(WithHand(s.players, actor, player.resources.Minus(CARD_COST))) == HandsOf(n.players)
            && HoldingsOf(s.players)[actor] == Holding(player.cards, player.playedKnights)
  {
  }

  lemma BuyCore(s: GameState, actor: PlayerId)
    requires hide *; Inv(s) && s.turn.phase == Action && s.winner.None? && s.pending.None?
    requires actor in s.players && s.bank.deck != [] && s.players[actor].resources.Covers(CARD_COST)
    ensures var n := AfterBuy(s, actor);
            && CoreInv(n) && !InSetup(n) && n.turn.phase == Action && n.pending.None?
            && (n.awards.longestRoad.Some? ==> n.awards.longestRoad.value in n.players)
            && (n.awards.largestArmy.Some? ==> n.awards.largestArmy.value in n.players)
  {
    hide Inv, CoreInv, BoardInv, ResourceInv, CardInv, AwardInv, PointInv, Distinct, HandsOf, HoldingsOf, ValidRandomState,
      PhaseInv, WithHand;
    InPlay(s);
    AwardHoldersKnown(s);
    PlayersAre(s);
    BankFits(s);
    HandFits(s.playerOrder, s.players, s.bank.resources, actor);
    WithBank(s.playerOrder, s.players, s.bank.resources, actor,
             s.players[actor].resources.Minus(CARD_COST), s.bank.resources.Plus(CARD_COST));
    BuyMaps(s, actor);
    CardInvBuy(s.playerOrder, HoldingsOf(s.players), s.bank.deck, s.turn.turnNumber, actor);
    var n := AfterBuy(s, actor);
    PaidPhase(s, n);
    Assemble(n);
  }

  lemma BuyIsSafe(s: GameState, actor: PlayerId)
    requires Inv(s) && s.turn.phase == Action && s.winner.None? && s.pending.None? && actor in s.players
    ensures Safe(s, ExecuteBuy(s, actor))
  {
    hide Inv, CoreInv, PhaseInv, CardAsserts, ScoringAsserts, TradingAsserts, ReconcileAndResolve, FourPlayers, ValidRandomState;
    if s.bank.deck != [] && s.players[actor].resources.Covers(CARD_COST) {
      var n := AfterBuy(s, actor);
      BuyCore(s, actor);
      ReconcileAndResolveFacts(n);
      InvAsserts(ReconcileAndResolve(n).state);
    }
  }

  // Playing.

  lemma PlayMaps(s: GameState, actor: PlayerId, card: OwnedCard, roads: int)
    requires actor in s.players && card.kind != VictoryPoint
    ensures var n, player := AfterPlay(s, actor, card, roads), s.players[actor];
            var knights := player.playedKnights + (if card.kind == Knight then 1 else 0);
            && n.players.Keys == s.players.Keys
            && HandsOf(n.players) == HandsOf(s.players)
            && n.players[actor].cards == ReplaceStatus(player.cards, card.id, Played)
            && HoldingsOf(n.players)
               == HoldingsOf(s.players)[actor := Holding(ReplaceStatus(player.cards, card.id, Played), knights)]
            && HoldingsOf(s.players)[actor] == Holding(player.cards, player.playedKnights)
            && (forall p :: p in s.players && p != actor ==> n.players[p] == s.players[p])
            && n.players[actor].playedKnights == knights
  {
    hide ReplaceStatus;
  }

  // The played card is a current-player reference that a pending effect may name.
  lemma PlayCards(s: GameState, actor: PlayerId, roads: int, id: int)
    requires FourPlayers(s) && actor in s.players
    requires CardInv(s.playerOrder, HoldingsOf(s.players), s.bank.deck, s.turn.turnNumber)
    requires ValidatePlayable(s, actor, id).None?
    ensures var card := FindCard(s.players[actor].cards, id).value;
            var n := AfterPlay(s, actor, card, roads);
            && CardInv(s.playerOrder, HoldingsOf(n.players), s.bank.deck, s.turn.turnNumber)
            && PlayedReference(n.players, actor, card.id, card.kind)
            && HandsOf(n.players) == HandsOf(s.players) && n.players.Keys == s.players.Keys
            && CardPoints(n.players[actor].cards) == CardPoints(s.players[actor].cards)
            && card.kind != VictoryPoint
  {
    hide CardIds, AllCardIds, IdsBelow, PlayedKnightCount, CardPoints, ReplaceStatus, HandsOf, ValidOwnedCard, Distinct, ValidDeck;
    var cards := s.players[actor].cards;
    var card := FindCard(cards, id).value;
    PlayersAre(s);
    PlayMaps(s, actor, card, roads);
    HandsAreUnique(s.playerOrder, HoldingsOf(s.players), s.bank.deck, s.turn.turnNumber, actor);
    assert ValidHolding(HoldingsOf(s.players)[actor], s.turn.turnNumber);
    PlayFacts(cards, id, s.turn.turnNumber);
    hide CardInv;
    CardInvReplace(s.playerOrder, HoldingsOf(s.players), s.bank.deck, s.turn.turnNumber, actor,
                   Holding(ReplaceStatus(cards, id, Played), s.players[actor].playedKnights + (if card.kind == Knight then 1 else 0)));
  }

  lemma PlayPhase(s: GameState, card: OwnedCard, roads: int)
    requires hide *; Inv(s) && IsEffectPhase(s.turn.phase) && s.winner.None? && s.pending.None? && s.turn.current in s.players
    requires card.kind != VictoryPoint
    requires PlayedReference(AfterPlay(s, s.turn.current, card, roads).players, s.turn.current, card.id, card.kind)
    requires card.kind == Invention ==> s.bank.resources.Total() >= 2
    requires card.kind == RoadBuilding ==>
               && KnownEdges(s.board) && (roads == 1 || roads == 2) && HasLegalFreeRoad(s.board, s.turn.current)
    ensures var n := AfterPlay(s, s.turn.current, card, roads);
            |n.playerOrder| == 4 && PhaseInv(n) && !InSetup(n) && n.turn.phase != GameOver && n.pending.Some?
  {
    hide Inv, CoreInv, BoardInv, ResourceInv, CardInv, AwardInv, PointInv, Distinct, HandsOf, HoldingsOf, ValidRandomState,
      DiscardInv, TargetInv, OverInv, SetupPhaseInv, PlayedReference, HasLegalFreeRoad, ReplaceStatus;
    PhaseOf(s);
  }

  lemma PlayCore(s: GameState, id: int, roads: int)
    requires Inv(s) && IsEffectPhase(s.turn.phase) && s.winner.None? && s.pending.None? && s.turn.current in s.players
    requires KnownEdges(s.board)
    requires ValidatePlayable(s, s.turn.current, id).None?
    requires var card := FindCard(s.players[s.turn.current].cards, id).value;
             && (card.kind == Invention ==> s.bank.resources.Total() >= 2)
             && (card.kind == RoadBuilding ==>
                   (roads == 1 || roads == 2) && HasLegalFreeRoad(s.board, s.turn.current))
    ensures var n := AfterPlay(s, s.turn.current, FindCard(s.players[s.turn.current].cards, id).value, roads);
            && CoreInv(n) && !InSetup(n) && n.turn.phase != GameOver && n.pending.Some?
  {
    hide Inv, CoreInv, BoardInv, ResourceInv, CardInv, AwardInv, PointInv, Distinct, HandsOf, HoldingsOf, ValidRandomState,
      PhaseInv, HasLegalFreeRoad, ReplaceStatus, FindCard, CardPoints, PlayedReference, KnownEdges;
    InPlay(s);
    var card := FindCard(s.players[s.turn.current].cards, id).value;
    PlayCards(s, s.turn.current, roads, id);
    PlayPhase(s, card, roads);
    Assemble(AfterPlay(s, s.turn.current, card, roads));
  }

  // All but a Knight leave awards and points as they were.
  lemma QuietPlay(s: GameState, id: int, roads: int)
    requires Inv(s) && IsEffectPhase(s.turn.phase) && s.winner.None? && s.pending.None? && s.turn.current in s.players
    requires ValidatePlayable(s, s.turn.current, id).None?
    requires FindCard(s.players[s.turn.current].cards, id).value.kind != Knight
    ensures var n := AfterPlay(s, s.turn.current, FindCard(s.players[s.turn.current].cards, id).value, roads);
            AwardInv(n) && PointInv(n)
  {
    hide Inv, CoreInv, BoardInv, ResourceInv, CardInv, AwardInv, Distinct, HandsOf, HoldingsOf, ValidRandomState,
      PhaseInv, ReplaceStatus, FindCard, CardPoints, PlayedReference;
    InPlay(s);
    var card := FindCard(s.players[s.turn.current].cards, id).value;
    PlayCards(s, s.turn.current, roads, id);
    PlayMaps(s, s.turn.current, card, roads);
    SameKnights(s, AfterPlay(s, s.turn.current, card, roads));
  }

  lemma SameKnights(s: GameState, n: GameState)
    requires AwardInv(s) && n.board == s.board && n.awards == s.awards && n.playerOrder == s.playerOrder
    requires n.players.Keys == s.players.Keys
    requires forall p :: p in s.players ==> n.players[p].playedKnights == s.players[p].playedKnights
    ensures AwardInv(n)
  {
    hide LongestRoadLength, DeriveHolder;
    OpenAwards(s);
    OpenAwards(n);
    assert RoadLengths(n) == RoadLengths(s) && KnightCounts(n) == KnightCounts(s);
  }

  lemma PlayIsSafe(s: GameState, id: int)
    requires hide *; Inv(s) && IsEffectPhase(s.turn.phase) && s.winner.None? && s.pending.None? && s.turn.current in s.players
    requires KnownEdges(s.board)
    ensures Safe(s, ExecutePlay(s, s.turn.current, id))
  {
    hide Inv, CoreInv, BoardInv, ResourceInv, CardInv, AwardInv, PointInv, Distinct, HandsOf, HoldingsOf, ValidRandomState,
      PhaseInv, HasLegalFreeRoad, ReplaceStatus, FindCard, CardPoints, PlayedReference, KnownEdges, RoadsOf,
      CardAsserts, ScoringAsserts, TradingAsserts, ReconcileAwards, DerivedAwards, FourPlayers;
    var actor := s.turn.current;
    if ValidatePlayable(s, actor, id).None? {
      var card := FindCard(s.players[actor].cards, id).value;
      var roads := if card.kind == RoadBuilding then RemainingFreeRoadCount(s.board, actor) else Some(0);
      if roads.Some? && !(card.kind == Invention && s.bank.resources.Total() < 2) {
        var n := AfterPlay(s, actor, card, roads.value);
        PlayCore(s, id, roads.value);
        if card.kind == Knight {
          AwardHoldersSurvive(s, n);
          ReconcileKeepsCore(n);
          KnightIsPending(n, n.(awards := DerivedAwards(n)));
          AllAsserts(n.(awards := DerivedAwards(n)));
        } else {
          QuietPlay(s, id, roads.value);
          Conclude(n);
          AllAsserts(n);
        }
      }
    }
  }

  lemma AwardHoldersSurvive(s: GameState, n: GameState)
    requires hide *; Inv(s) && n.awards == s.awards && n.players.Keys == s.players.Keys
    ensures n.awards.longestRoad.Some? ==> n.awards.longestRoad.value in n.players
    ensures n.awards.largestArmy.Some? ==> n.awards.largestArmy.value in n.players
  {
    hide CoreInv, AwardInv, PointInv;
    AwardHoldersKnown(s);
  }

  // While a Knight waits on the robber, ten points do not yet decide the game.
  lemma KnightIsPending(n: GameState, after: GameState)
    requires CoreInv(after) && AwardInv(after) && KnightPending(after)
    ensures Inv(after)
  {
    hide BoardInv, ResourceInv, CardInv, PhaseInv, AwardInv, SetupInv;
    OpenCore(after);
  }

  // Free roads.

  lemma FreeRoadShape(s: GameState)
    requires hide *; Inv(s) && s.turn.phase == FreeRoadPlacement
    ensures FreeRoadInv(s.board, s.players, s.turn, s.pending) && s.winner.None? && !KnightPending(s)
    ensures s.turn.lastRoll.Some? ==> ValidRoll(s.turn.lastRoll.value)
  {
    hide BoardInv, ResourceInv, CardInv, AwardInv, PointInv, SetupInv, TurnInv, HasLegalFreeRoad, PlayedReference, KnownEdges;
    OpenCore(s);
  }

  lemma FreeRoadPhase(s: GameState, e: EdgeId)
    requires hide *; Inv(s) && s.turn.phase == FreeRoadPlacement && s.pending.Some? && s.pending.value.PlaceFreeRoads?
    requires KnownEdges(AfterFreeRoad(s, s.turn.current, e).board)
    ensures var n := AfterFreeRoad(s, s.turn.current, e);
            && |n.playerOrder| == 4 && PhaseInv(n) && !InSetup(n) && n.turn.phase != GameOver
            && PhaseInv(n.(turn := n.turn.(phase := ResumePhase(n)), pending := None))
  {
    hide Inv, CoreInv, BoardInv, ResourceInv, CardInv, AwardInv, PointInv, SetupInv, TurnInv, HasLegalFreeRoad, PlayedReference,
      KnownEdges, DiscardInv, MoveInv, TargetInv, OverInv, EffectInv, SetupPhaseInv;
    PhaseOf(s);
    FreeRoadShape(s);
  }

  // The state after a free road, and the same state with the effect cut short by victory.
  lemma FreeRoadCore(s: GameState, e: EdgeId)
    requires Inv(s) && s.turn.phase == FreeRoadPlacement && s.pending.Some? && s.pending.value.PlaceFreeRoads?
    requires KnownEdges(s.board) && ValidateFreeRoad(s.board, s.turn.current, e).None?
    ensures var n := AfterFreeRoad(s, s.turn.current, e);
            && CoreInv(n) && !InSetup(n) && n.turn.phase != GameOver && !KnightPending(n)
            && CoreInv(n.(turn := n.turn.(phase := ResumePhase(n)), pending := None))
  {
    hide Inv, CoreInv, BoardInv, ResourceInv, CardInv, AwardInv, PointInv, PhaseInv, ClassifyConnection, RoadsOf, HandsOf, HoldingsOf,
      Distinct, ValidRandomState, FreeRoadInv, KnownEdges;
    InPlay(s);
    var n := AfterFreeRoad(s, s.turn.current, e);
    LegalRoadKeepsBoard(s.board, s.players.Keys, s.turn.current, e);
    assert KnownEdges(n.board) by {
      BoardTopology(n.board, s.players.Keys);
      EdgesAreKnown(n.board);
    }
    FreeRoadShape(s);
    FreeRoadPhase(s, e);
    Assemble(n);
    Assemble(n.(turn := n.turn.(phase := ResumePhase(n)), pending := None));
  }

  lemma BelowTarget(n: GameState, p: PlayerId)
    requires hide *; CoreInv(n) && AwardInv(n) && p == n.turn.current && p in n.players && ActualPoints(n, p) < VICTORY_TARGET
    ensures Inv(n)
  {
    hide CoreInv, AwardInv, Points;
  }

  lemma FreeRoadIsSafe(s: GameState, e: EdgeId)
    requires hide *; Inv(s) && s.turn.phase == FreeRoadPlacement && s.pending.Some? && s.pending.value.PlaceFreeRoads?
    requires KnownEdges(s.board) && s.turn.current in s.players
    ensures Safe(s, ExecuteFreeRoad(s, s.turn.current, e))
  {
    hide Inv, CoreInv, BoardInv, ResourceInv, CardInv, AwardInv, PointInv, PhaseInv, ClassifyConnection, RoadsOf, HandsOf, HoldingsOf,
      FreeRoadInv, CardAsserts, ScoringAsserts, TradingAsserts, ReconcileAwards, DerivedAwards, FourPlayers, ResolveVictory,
      Points;
    var actor := s.turn.current;
    if ValidateFreeRoad(s.board, actor, e).None? {
      var n := AfterFreeRoad(s, actor, e);
      FreeRoadCore(s, e);
      AwardHoldersSurvive(s, n);
      ReconcileKeepsCore(n);
      var after := n.(awards := DerivedAwards(n));
      if ActualPoints(after, actor) >= VICTORY_TARGET {
        var stable := after.(turn := after.turn.(phase := ResumePhase(after)), pending := None);
        var cut := n.(turn := n.turn.(phase := ResumePhase(n)), pending := None);
        CoreIgnoresAwards(cut, DerivedAwards(n));
        StableAwards(after, stable);
        ResolveFacts(stable);
        InvAsserts(ResolveVictory(stable).state);
      } else {
        BelowTarget(after, actor);
        InvAsserts(after);
      }
    }
  }

  lemma StableAwards(s: GameState, n: GameState)
    requires AwardInv(s) && n == s.(turn := n.turn, pending := n.pending)
    ensures AwardInv(n)
  {
    hide LongestRoadLength, DeriveHolder;
    OpenAwards(s);
    OpenAwards(n);
    assert RoadLengths(n) == RoadLengths(s) && KnightCounts(n) == KnightCounts(s);
  }

  lemma FinishPhase(s: GameState)
    requires Inv(s) && s.turn.phase == FreeRoadPlacement
    ensures |s.playerOrder| == 4 && PhaseInv(AfterFinish(s)) && !InSetup(AfterFinish(s))
  {
    hide Inv, CoreInv, BoardInv, ResourceInv, CardInv, AwardInv, PointInv, SetupInv, TurnInv, FreeRoadInv,
      DiscardInv, MoveInv, TargetInv, OverInv, EffectInv, SetupPhaseInv;
    PhaseOf(s);
    FreeRoadShape(s);
  }

  lemma FinishIsSafe(s: GameState, actor: PlayerId)
    requires hide *; Inv(s) && s.turn.phase == FreeRoadPlacement && s.pending.Some? && s.pending.value.PlaceFreeRoads?
    requires KnownEdges(s.board)
    ensures Safe(s, ExecuteFinish(s, actor))
  {
    hide Inv, CoreInv, BoardInv, ResourceInv, CardInv, AwardInv, PointInv, PhaseInv, HandsOf, HoldingsOf, FreeRoadInv, KnownEdges,
      CardAsserts, ScoringAsserts, TradingAsserts, HasLegalFreeRoad, FourPlayers;
    InPlay(s);
    FinishPhase(s);
    FreeRoadShape(s);
    RobberTileKnown(s);
    HandsOnly(s, AfterFinish(s));
    AllAsserts(AfterFinish(s));
  }

  // Invention and Monopoly.

  lemma EffectShape(s: GameState)
    requires hide *; Inv(s) && IsEffectPhase(s.turn.phase) && s.pending.Some?
    requires s.pending.value.ChooseInvention? || s.pending.value.ChooseMonopoly?
    ensures s.pending.value.actor == s.turn.current && s.winner.None? && !KnightPending(s)
    ensures s.pending.value.ChooseInvention? ==> s.bank.resources.Total() >= 2
  {
    hide BoardInv, ResourceInv, CardInv, AwardInv, PointInv, SetupInv, TurnInv, PlayedReference, FourPlayers;
    OpenCore(s);
  }

  lemma EffectPhase(s: GameState, n: GameState)
    requires hide *; Inv(s) && IsEffectPhase(s.turn.phase)
    requires n.playerOrder == s.playerOrder && n.turn == s.turn && n.pending.None? && n.winner == s.winner
    ensures |n.playerOrder| == 4 && PhaseInv(n) && !InSetup(n)
  {
    hide Inv, CoreInv, BoardInv, ResourceInv, CardInv, AwardInv, PointInv, SetupInv, TurnInv, FreeRoadInv,
      DiscardInv, MoveInv, TargetInv, OverInv, EffectInv, SetupPhaseInv;
    PhaseOf(s);
  }

  lemma InventionResourcesKept(s: GameState, actor: PlayerId, selection: Bag)
    requires FourPlayers(s) && ResourceInv(s.playerOrder, HandsOf(s.players), s.bank.resources) && actor in s.players
    requires selection.Complete() && s.bank.resources.Covers(selection)
    ensures var players := WithHand(s.players, actor, s.players[actor].resources.Plus(selection));
            && ResourceInv(s.playerOrder, HandsOf(players), s.bank.resources.Minus(selection))
            && HoldingsOf(players) == HoldingsOf(s.players)
  {
    hide ResourceInv, HandsOf, HoldingsOf, WithHand, Distinct;
    PlayersAre(s);
    HandFits(s.playerOrder, s.players, s.bank.resources, actor);
    BankFits(s);
    WithBank(s.playerOrder, s.players, s.bank.resources, actor,
             s.players[actor].resources.Plus(selection), s.bank.resources.Minus(selection));
  }

  lemma InventionIsSafe(s: GameState, actor: PlayerId, selection: Bag)
    requires hide *; Inv(s) && IsEffectPhase(s.turn.phase) && s.pending.Some? && s.pending.value.ChooseInvention?
    requires actor == s.pending.value.actor && actor in s.players
    ensures Safe(s, ExecuteInvention(s, actor, selection))
  {
    hide Inv, CoreInv, BoardInv, ResourceInv, CardInv, AwardInv, PointInv, PhaseInv, HandsOf, HoldingsOf, Distinct, FourPlayers,
      CardAsserts, ScoringAsserts, TradingAsserts, ValidRandomState, WithHand, SamePieces;
    InPlay(s);
    EffectShape(s);
    if ValidateInvention(selection, s.bank.resources).None? {
      var n := AfterInvention(s, actor, selection);
      InventionResourcesKept(s, actor, selection);
      EffectPhase(s, n);
      RobberTileKnown(s);
      HandsOnly(s, n);
      AllAsserts(n);
    }
  }

  // A Monopoly gathers what the others held and loses nothing.
  lemma {:induction false} MonopolySum(
    order: seq<PlayerId>, hands: map<PlayerId, Bag>, after: map<PlayerId, Bag>, actor: PlayerId, r: Resource, gain: int)
    requires forall p :: p in order ==> p in hands && p in after
    requires forall p :: p in order ==>
               after[p] == hands[p].Set(r, if p == actor then hands[p].Get(r) + gain else 0)
    requires Distinct(order)
    ensures var sum := SumHands(order, hands);
            SumHands(order, after)
            == sum.Set(r, sum.Get(r) - HeldByOthers(order, hands, actor, r) + (if actor in order then gain else 0))
  {
    hide SumHands;
    SumHandsUnfold(order, hands);
    SumHandsUnfold(order, after);
    if order != [] {
      var first, rest := order[0], order[1..];
      assert first in order && forall p :: p in rest ==> p in order;
      MonopolySum(rest, hands, after, actor, r, gain);
      assert first !in rest;
    }
  }

  lemma {:induction false} HeldIsNonNegative(order: seq<PlayerId>, hands: map<PlayerId, Bag>, actor: PlayerId, r: Resource)
    requires forall p :: p in order ==> p in hands && hands[p].Complete()
    ensures HeldByOthers(order, hands, actor, r) >= 0
  {
    if order != [] {
      var first := order[0];
      assert first in order && hands[first].Complete();
      HeldIsNonNegative(order[1..], hands, actor, r);
    }
  }

  lemma MonopolyMaps(s: GameState, actor: PlayerId, r: Resource)
    requires actor in s.players
    requires forall p :: p in s.playerOrder ==> p in s.players
    ensures var hands, after := HandsOf(s.players), HandsOf(MonopolyPlayers(s, actor, r));
            var gain := HeldByOthers(s.playerOrder, hands, actor, r);
            forall p :: p in s.playerOrder ==>
              p in hands && p in after && after[p] == hands[p].Set(r, if p == actor then hands[p].Get(r) + gain else 0)
    ensures HoldingsOf(MonopolyPlayers(s, actor, r)) == HoldingsOf(s.players)
  {
    hide HeldByOthers;
  }

  lemma MonopolyHands(hand: Bag, r: Resource, n: int)
    requires hand.Complete() && n >= 0
    ensures hand.Set(r, n).Complete()
  {
  }

  lemma SetSame(hand: Bag, r: Resource)
    ensures hand.Set(r, hand.Get(r)) == hand
  {
  }

  lemma MonopolyConserves(s: GameState, actor: PlayerId, r: Resource)
    requires FourPlayers(s) && ResourceInv(s.playerOrder, HandsOf(s.players), s.bank.resources) && actor in s.players
    requires forall p :: p in s.playerOrder ==> p in s.players
    ensures ResourceInv(s.playerOrder, HandsOf(MonopolyPlayers(s, actor, r)), s.bank.resources)
    ensures HoldingsOf(MonopolyPlayers(s, actor, r)) == HoldingsOf(s.players)
  {
    hide SumHands, HeldByOthers, MonopolyPlayers, HoldingsOf, HandsOf, Distinct;
    var hands, after := HandsOf(s.players), HandsOf(MonopolyPlayers(s, actor, r));
    var gain := HeldByOthers(s.playerOrder, hands, actor, r);
    MonopolyMaps(s, actor, r);
    HeldIsNonNegative(s.playerOrder, hands, actor, r);
    MonopolySum(s.playerOrder, hands, after, actor, r, gain);
    assert actor in s.playerOrder;
    SetSame(SumHands(s.playerOrder, hands), r);
    forall p | p in s.playerOrder ensures p in after && after[p].Complete() {
      assert hands[p].Complete();
      var n := if p == actor then hands[p].Get(r) + gain else 0;
      GetNonNegative(hands[p], r);
      MonopolyHands(hands[p], r, n);
    }
  }

  lemma GetNonNegative(hand: Bag, r: Resource)
    requires hand.Complete()
    ensures hand.Get(r) >= 0
  {
  }

  lemma MonopolyIsSafe(s: GameState, actor: PlayerId, r: Resource)
    requires hide *; Inv(s) && IsEffectPhase(s.turn.phase) && s.pending.Some? && s.pending.value.ChooseMonopoly?
    requires actor == s.pending.value.actor && actor in s.players
    requires forall p :: p in s.playerOrder ==> p in s.players
    ensures Safe(s, ExecuteMonopoly(s, actor, r))
  {
    hide Inv, CoreInv, BoardInv, ResourceInv, CardInv, AwardInv, PointInv, PhaseInv, HandsOf, HoldingsOf, Distinct,
      CardAsserts, ScoringAsserts, TradingAsserts, ValidRandomState, MonopolyPlayers;
    InPlay(s);
    EffectShape(s);
    var n := AfterMonopoly(s, actor, r);
    MonopolyConserves(s, actor, r);
    EffectPhase(s, n);
    RobberTileKnown(s);
    HandsOnly(s, n);
    AllAsserts(n);
  }

  lemma PendingEffectIsSafe(s: GameState, env: Envelope)
    requires hide *; Inv(s)
    requires env.command.BuildRoad? || env.command.FinishFreeRoads? || env.command.TakeInvention? || env.command.TakeMonopoly?
    requires env.actor in s.players && KnownEdges(s.board)
    requires forall p :: p in s.playerOrder ==> p in s.players
    ensures Safe(s, ExecutePendingEffect(s, env))
  {
    hide Inv, CoreInv, FourPlayers, KnownEdges, ExecuteFreeRoad, ExecuteFinish, ExecuteInvention, ExecuteMonopoly, FreeRoadInv;
    if s.pending.Some? && EffectMatches(s.pending.value, env.command) && env.actor == s.pending.value.actor {
      match env.command {
        case BuildRoad(e) =>
          if s.turn.phase == FreeRoadPlacement {
            FreeRoadActor(s);
            FreeRoadIsSafe(s, e);
          }
        case FinishFreeRoads =>
          if s.turn.phase == FreeRoadPlacement {
            FinishIsSafe(s, env.actor);
          }
        case TakeInvention(selection) =>
          if IsEffectPhase(s.turn.phase) {
            InventionIsSafe(s, env.actor, selection);
          }
        case TakeMonopoly(r) =>
          if IsEffectPhase(s.turn.phase) {
            MonopolyIsSafe(s, env.actor, r);
          }
      }
    }
  }

  lemma FreeRoadActor(s: GameState)
    requires hide *; Inv(s) && s.turn.phase == FreeRoadPlacement && s.pending.Some? && s.pending.value.PlaceFreeRoads?
    ensures s.pending.value.actor == s.turn.current
  {
    hide Inv;
    FreeRoadShape(s);
  }

  lemma CardsAreSafe(s: GameState, env: Envelope)
    requires Inv(s)
    requires env.command.BuildRoad? || env.command.FinishFreeRoads? || env.command.TakeInvention?
             || env.command.TakeMonopoly? || env.command.BuyCard? || env.command.PlayCard?
    ensures Safe(s, ExecuteCards(s, env))
  {
    hide Inv, CoreInv, FourPlayers, KnownEdges, CardAsserts, ScoringAsserts, TradingAsserts, ExecutePendingEffect, ExecuteBuy,
      ExecutePlay, ValidRandomState;
    InvAsserts(s);
    PlayersAre(s);
    if env.actor in s.players && s.winner.None? {
      if env.command.BuyCard? {
        if s.turn.phase == Action && s.pending.None? {
          BuyIsSafe(s, env.actor);
        }
      } else if env.command.PlayCard? {
        if IsEffectPhase(s.turn.phase) && s.pending.None? && env.actor == s.turn.current {
          PlayIsSafe(s, env.command.cardId);
        }
      } else {
        PendingEffectIsSafe(s, env);
      }
    }
  }
}
