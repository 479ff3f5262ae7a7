// Resolving victory never throws and leaves a state that satisfies the full invariant.

module Victory {
  import opened Board
  import opened Bags
  import opened GameModel
  import opened LongestRoad
  import opened SeededRandom
  import opened Production
  import opened Rules
  import opened Assertions
  import opened Engine
  import opened Invariants
  import opened InvariantsImplyAssertions
  import opened CardFacts

  function Won(s: GameState): GameState
    requires s.turn.current in s.players
  {
    var player := s.players[s.turn.current];
    s.(players := s.players[s.turn.current := player.(cards := RevealPoints(player.cards))],
       turn := s.turn.(phase := GameOver), pending := None, winner := Some(s.turn.current))
  }

  lemma WonMaps(s: GameState)
    requires s.turn.current in s.players
    ensures var player := s.players[s.turn.current];
            && Won(s).players.Keys == s.players.Keys
            && HandsOf(Won(s).players) == HandsOf(s.players)
            && HoldingsOf(Won(s).players)
               == HoldingsOf(s.players)[s.turn.current := Holding(RevealPoints(player.cards), player.playedKnights)]
  {
  }

  lemma WonCards(s: GameState)
    requires FourPlayers(s)
    requires CardInv(s.playerOrder, HoldingsOf(s.players), s.bank.deck, s.turn.turnNumber)
    ensures CardInv(s.playerOrder, HoldingsOf(Won(s).players), s.bank.deck, s.turn.turnNumber)
  {
    WonMaps(s);
    var current := s.turn.current;
    var h := HoldingsOf(s.players)[current];
    assert ValidHolding(h, s.turn.turnNumber);
    RevealValid(h.cards, s.turn.turnNumber);
    RevealFacts(h.cards);
    hide ValidHolding, AllCardIds, CardIds, IdsBelow, RevealPoints;
    CardInvReplace(s.playerOrder, HoldingsOf(s.players), s.bank.deck, s.turn.turnNumber, current,
                   Holding(RevealPoints(h.cards), h.playedKnights));
  }

  lemma WonAwards(s: GameState)
    requires FourPlayers(s) && AwardInv(s)
    ensures AwardInv(Won(s))
  {
    hide LongestRoadLength, DeriveHolder, RevealPoints;
    OpenAwards(s);
    OpenAwards(Won(s));
    assert RoadLengths(Won(s)) == RoadLengths(s);
    assert KnightCounts(Won(s)) == KnightCounts(s);
  }

  lemma WonIsOver(s: GameState)
    requires s.turn.current in s.players && ActualPoints(s, s.turn.current) >= VICTORY_TARGET
    ensures OverInv(s.board, s.awards, Won(s).players, Won(s).turn, Won(s).pending, Won(s).winner)
  {
    RevealFacts(s.players[s.turn.current].cards);
  }

  lemma WonKeepsInv(s: GameState)
    requires CoreInv(s) && AwardInv(s) && !InSetup(s)
    requires ActualPoints(s, s.turn.current) >= VICTORY_TARGET
    ensures Inv(Won(s))
  {
    hide BoardInv, ResourceInv, CardInv, AwardInv, RevealPoints, OverInv, Points, HandsOf, HoldingsOf, Distinct,
      ActionInv, EffectInv, DiscardInv, MoveInv, TargetInv, FreeRoadInv, SetupPieces, FreshSettlement, SetupPhaseInv, ValidRoll;
    OpenCore(s);
    WonMaps(s);
    WonCards(s);
    WonAwards(s);
    WonIsOver(s);
    assert ResourceInv(s.playerOrder, HandsOf(Won(s).players), s.bank.resources);
    assert PhaseInv(Won(s));
    assert CoreInv(Won(s));
  }

  lemma ResolveFacts(s: GameState)
    requires hide *; CoreInv(s) && AwardInv(s) && !InSetup(s) && s.turn.phase != GameOver
    ensures ResolveVictory(s).Accepted?
    ensures s.pending.Some? ==> ResolveVictory(s).state == s
    ensures s.pending.None? ==> Inv(ResolveVictory(s).state)
    ensures CoreInv(ResolveVictory(s).state) && AwardInv(ResolveVictory(s).state)
    ensures ResolveVictory(s).state.stateVersion == s.stateVersion
  {
    OpenCore(s);
    SafeImpliesScoring(s);
    FourFromCore(s);
    WinnerFacts(s);
    if s.pending.None? && ActualPoints(s, s.turn.current) >= VICTORY_TARGET {
      WonKeepsInv(s);
      SafeImpliesScoring(Won(s));
    }
    hide CoreInv, AwardInv, ScoringAsserts, Points, RevealPoints;
  }

  // Reconcile, then resolve: what every build and purchase ends with.
  lemma ReconcileAndResolveFacts(s: GameState)
    requires CoreInv(s) && !InSetup(s) && s.turn.phase != GameOver && s.pending.None?
    requires s.awards.longestRoad.Some? ==> s.awards.longestRoad.value in s.players
    requires s.awards.largestArmy.Some? ==> s.awards.largestArmy.value in s.players
    ensures ReconcileAndResolve(s).Accepted? && Inv(ReconcileAndResolve(s).state)
    ensures ReconcileAndResolve(s).state.stateVersion == s.stateVersion
  {
    OpenCore(s);
    ReconcileKeepsCore(s);
    hide CoreInv, AwardInv, DerivedAwards, ReconcileAwards, ResolveVictory;
    ResolveFacts(s.(awards := DerivedAwards(s)));
  }

  lemma AwardHoldersKnown(s: GameState)
    requires hide *; CoreInv(s) && AwardInv(s)
    ensures s.awards.longestRoad.Some? ==> s.awards.longestRoad.value in s.players
    ensures s.awards.largestArmy.Some? ==> s.awards.largestArmy.value in s.players
  {
    OpenCore(s);
    FourFromCore(s);
    HoldingFacts(s);
    AwardsAreHeldByLeaders(s);
  }
}
