// Rolling the dice and ending a turn keep the invariant and never throw.

module Frames {
  import opened Board
  import opened Bags
  import opened GameModel
  import opened LongestRoad
  import opened SeededRandom
  import opened Production
  import opened Rules
  import opened Assertions
  import opened Engine
  import opened Invariants
  import opened InvariantsImplyAssertions
  import opened Geometry

  // What holds of every state in play: after setup, before the end.
  lemma InPlay(s: GameState)
    requires Inv(s) && !InSetup(s)
    ensures CoreInv(s) && AwardInv(s) && PointInv(s) && FourPlayers(s)
    ensures BoardInv(s.board, s.players.Keys) && ValidRandomState(s.random)
    ensures ResourceInv(s.playerOrder, HandsOf(s.players), s.bank.resources)
    ensures CardInv(s.playerOrder, HoldingsOf(s.players), s.bank.deck, s.turn.turnNumber)
    ensures s.stateVersion >= 16 && s.turn.turnNumber > 0 && TurnInv(s.stateVersion, s.playerOrder, s.turn)
    ensures s.turn.current in s.players && s.turn.current in s.playerOrder && s.turn.setup.None?
  {
    hide BoardInv, ResourceInv, CardInv, AwardInv, PointInv, SetupInv;
    OpenCore(s);
  }

  lemma PlayersAre(s: GameState)
    requires FourPlayers(s)
    ensures forall p :: p in s.playerOrder <==> p in s.players
  {
  }

  // Assembling the invariant of a state in play.
  lemma Assemble(n: GameState)
    requires FourPlayers(n) && n.stateVersion >= 16 && ValidRandomState(n.random) && !InSetup(n)
    requires BoardInv(n.board, n.players.Keys)
    requires ResourceInv(n.playerOrder, HandsOf(n.players), n.bank.resources)
    requires CardInv(n.playerOrder, HoldingsOf(n.players), n.bank.deck, n.turn.turnNumber)
    requires PhaseInv(n) && TurnInv(n.stateVersion, n.playerOrder, n.turn)
    ensures CoreInv(n)
  {
    hide BoardInv, ResourceInv, CardInv, PhaseInv, TurnInv, Distinct;
  }

  // n differs from s in nothing that awards or points depend on.
  predicate SamePieces(b: BoardState, b': BoardState) {
    b' == b.(robberTileId := b'.robberTileId)
  }

  lemma RobberIgnored(b: BoardState, b': BoardState, p: PlayerId)
    requires ValidTopology(b.topology) && SamePieces(b, b')
    ensures LongestRoadLength(b, p) == LongestRoadLength(b', p)
    ensures RoadsOf(b, p) == RoadsOf(b', p)
    ensures forall kind :: BuildingsOf(b, p, kind) == BuildingsOf(b', p, kind)
  {
    NeverShorter(b, b', p);
    NeverShorter(b', b, p);
  }

  lemma AwardFrame(s: GameState, n: GameState)
    requires AwardInv(s) && ValidTopology(s.board.topology)
    requires SamePieces(s.board, n.board) && n.awards == s.awards && n.playerOrder == s.playerOrder
    requires HoldingsOf(n.players) == HoldingsOf(s.players)
    ensures AwardInv(n)
  {
    hide ValidTopology, LongestRoadLength, DeriveHolder, SamePieces;
    OpenAwards(s);
    OpenAwards(n);
    forall p | p in s.playerOrder ensures RoadLengths(n)[p] == RoadLengths(s)[p] && KnightCounts(n)[p] == KnightCounts(s)[p] {
      RobberIgnored(s.board, n.board, p);
      assert p in HoldingsOf(n.players) <==> p in n.players;
      assert p in HoldingsOf(s.players) <==> p in s.players;
      assert p in s.players ==> HoldingsOf(n.players)[p] == HoldingsOf(s.players)[p];
    }
    assert RoadLengths(n) == RoadLengths(s) && KnightCounts(n) == KnightCounts(s);
  }

  lemma PointFrame(s: GameState, n: GameState, p: PlayerId)
    requires ValidTopology(s.board.topology)
    requires SamePieces(s.board, n.board) && n.awards == s.awards
    requires HoldingsOf(n.players) == HoldingsOf(s.players) && p in s.players
    ensures p in n.players && ActualPoints(n, p) == ActualPoints(s, p)
  {
    hide ValidTopology, LongestRoadLength, SamePieces, BuildingsOf;
    assert p in HoldingsOf(s.players) && p in HoldingsOf(n.players);
    assert HoldingsOf(n.players)[p] == HoldingsOf(s.players)[p];
    RobberIgnored(s.board, n.board, p);
  }

  // Moving cards between hands and the bank, or the robber between tiles.
  lemma HandsOnly(s: GameState, n: GameState)
    requires hide *; Inv(s) && !InSetup(s) && !InSetup(n)
    requires SamePieces(s.board, n.board) && n.board.robberTileId in s.board.topology.tiles
    requires n == s.(stateVersion := s.stateVersion + 1, board := n.board, players := n.players,
                     bank := n.bank, turn := n.turn, pending := n.pending, random := n.random)
    requires n.turn.current == s.turn.current && n.turn.turnNumber == s.turn.turnNumber
    requires HoldingsOf(n.players) == HoldingsOf(s.players) && n.bank.deck == s.bank.deck
    requires ValidRandomState(n.random)
    requires ResourceInv(n.playerOrder, HandsOf(n.players), n.bank.resources)
    requires |n.playerOrder| == 4 && PhaseInv(n)
    ensures CoreInv(n) && AwardInv(n)
    ensures KnightPending(n) || !KnightPending(s) ==> Inv(n)
  {
    hide CoreInv, Inv, BoardInv, ResourceInv, CardInv, PhaseInv, AwardInv, PointInv, SamePieces, Points, HandsOf, HoldingsOf,
      Distinct, ValidTopology, KnightPending;
    InPlay(s);
    SameKeys(s.players, n.players);
    BoardTopology(s.board, s.players.Keys);
    AwardFrame(s, n);
    PointFrame(s, n, s.turn.current);
    RobberKeepsBoard(s.board, s.players.Keys, n.board.robberTileId);
    SameBoard(s.board, n.board);
    Assemble(n);
    if KnightPending(n) || !KnightPending(s) {
      PointsCarry(s, n);
      Conclude(n);
    }
  }

  lemma PointsCarry(s: GameState, n: GameState)
    requires PointInv(s) && n.winner == s.winner && n.turn.current == s.turn.current && !InSetup(s)
    requires s.turn.current in s.players && n.turn.current in n.players
    requires ActualPoints(n, n.turn.current) == ActualPoints(s, s.turn.current)
    requires KnightPending(n) || !KnightPending(s)
    ensures PointInv(n)
  {
    hide KnightPending, Points;
  }

  lemma SameBoard(b: BoardState, b': BoardState)
    requires SamePieces(b, b')
    ensures b' == b.(robberTileId := b'.robberTileId)
  {
  }

  lemma BoardTopology(b: BoardState, players: set<PlayerId>)
    requires BoardInv(b, players)
    ensures ValidTopology(b.topology)
  {
  }

  lemma SameKeys(players: map<PlayerId, PlayerState>, players': map<PlayerId, PlayerState>)
    requires HoldingsOf(players') == HoldingsOf(players)
    ensures players'.Keys == players.Keys
  {
    assert players.Keys == HoldingsOf(players).Keys;
    assert players'.Keys == HoldingsOf(players').Keys;
  }

  lemma Conclude(n: GameState)
    requires CoreInv(n) && AwardInv(n) && PointInv(n)
    ensures Inv(n)
  {
    OpenCore(n);
  }

  // The assertions a sub-engine evaluates at its end all hold.
  lemma AllAsserts(n: GameState)
    requires CoreInv(n) && AwardInv(n)
    ensures ScoringAsserts(n) && CardAsserts(n) && TradingAsserts(n)
  {
    OpenCore(n);
    SafeImpliesTrading(n);
  }

  lemma InvAsserts(s: GameState)
    requires Inv(s)
    ensures ScoringAsserts(s) && CardAsserts(s) && TradingAsserts(s) && FourPlayers(s)
    ensures ValidRandomState(s.random) && KnownEdges(s.board)
  {
    hide CoreInv, AwardInv, PointInv, ScoringAsserts, CardAsserts, TradingAsserts;
    AllAsserts(s);
    CoreBasics(s);
  }

  lemma CoreBasics(s: GameState)
    requires CoreInv(s)
    ensures FourPlayers(s) && ValidRandomState(s.random) && KnownEdges(s.board)
  {
    hide ResourceInv, CardInv, PhaseInv, SetupInv, TurnInv, KnownOccupancy, WithinLimits, Spaced, AllAnchored, ValidTopology, KnownEdges;
    OpenCore(s);
    EdgesAreKnown(s.board);
  }

  ghost predicate Safe(s: GameState, result: EngineResult) {
    !result.Threw? && (result.Accepted? ==> Inv(result.state) && result.state.stateVersion == s.stateVersion + 1)
  }
}

module TurnSafety {
  import opened Board
  import opened Bags
  import opened GameModel
  import opened LongestRoad
  import opened SeededRandom
  import opened Production
  import opened Rules
  import opened Assertions
  import opened Engine
  import opened Invariants
  import opened InvariantsImplyAssertions
  import opened Geometry
  import opened Frames
  import opened CardFacts
  import opened Victory

  lemma {:induction false} FilterNobody(order: seq<PlayerId>)
    ensures FilterOrder(order, {}) == []
  {
    if order != [] {
      FilterNobody(order[1..]);
    }
  }

  lemma SevenPhase(s: GameState, roll: DiceRoll, random: RandomState)
    requires Inv(s) && s.turn.phase == RollRequired && s.winner.None?
    requires ValidRoll(roll) && roll.total == 7 && ValidRandomState(random)
    ensures |s.playerOrder| == 4 && PhaseInv(AfterSeven(s, roll, random)) && !InSetup(AfterSeven(s, roll, random))
  {
    hide Inv, CoreInv, BoardInv, ResourceInv, CardInv, AwardInv, PointInv, ActionInv, TargetInv, FreeRoadInv, OverInv,
      EffectInv, SetupPhaseInv, HandsOf, HoldingsOf, Points;
    InPlay(s);
    var required := DiscardRequirements(s);
    if required != map[] {
      FilterNobody(s.playerOrder);
      var completed: seq<PlayerId> := [];
      assert (set p | p in completed) == {};
      var p := NonEmptyMap(required);
    }
  }

  // A seven touches neither the pieces nor the cards.
  lemma SevenFrame(s: GameState, roll: DiceRoll, random: RandomState)
    ensures var n := AfterSeven(s, roll, random);
            && n == s.(stateVersion := s.stateVersion + 1, turn := n.turn, pending := n.pending, random := random)
            && n.turn.current == s.turn.current && n.turn.turnNumber == s.turn.turnNumber && !KnightPending(n)
  {
    hide DiscardRequirements;
  }

  lemma RollSevenIsSafe(s: GameState, roll: DiceRoll, random: RandomState)
    requires Inv(s) && s.turn.phase == RollRequired && s.winner.None? && s.pending.None?
    requires ValidRoll(roll) && roll.total == 7 && ValidRandomState(random)
    ensures Inv(AfterSeven(s, roll, random)) && ScoringAsserts(AfterSeven(s, roll, random))
  {
    hide Inv, CoreInv, ResourceInv, CardInv, AwardInv, PointInv, PhaseInv, DiscardRequirements, ScoringAsserts, Distinct, TurnInv,
      ValidTopology, KnownOccupancy, WithinLimits, Spaced, AllAnchored, TradingAsserts, CardAsserts, AfterSeven, HandsOf, HoldingsOf;
    InPlay(s);
    SevenPhase(s, roll, random);
    SevenFrame(s, roll, random);
    var n := AfterSeven(s, roll, random);
    HandsOnly(s, n);
    AllAsserts(n);
  }

  lemma ProductionInputsHold(s: GameState)
    requires BoardInv(s.board, s.players.Keys)
    requires ResourceInv(s.playerOrder, HandsOf(s.players), s.bank.resources)
    ensures ProductionInputs(s)
  {
    hide ValidTopology, KnownOccupancy, WithinLimits, Spaced, AllAnchored, SumHands;
    forall p | p in s.playerOrder ensures p in s.players && s.players[p].resources.Complete() {
      assert p in HandsOf(s.players);
    }
  }

  lemma ProducedHands(s: GameState, total: int)
    requires ResourceInv(s.playerOrder, HandsOf(s.players), s.bank.resources)
    ensures HoldingsOf(ProducedPlayers(s, total)) == HoldingsOf(s.players)
    ensures ResourceInv(s.playerOrder, HandsOf(ProducedPlayers(s, total)), ProducedBank(s, total))
  {
    hide SumHands, ProducedPlayers, ProducedBank, HoldingsOf;
    forall p | p in s.playerOrder ensures p in s.players && s.players[p].resources.Complete() {
      assert p in HandsOf(s.players);
    }
    ProductionConserves(s, total);
  }

  lemma ProductionPhase(s: GameState, roll: DiceRoll, random: RandomState)
    requires Inv(s) && s.turn.phase == RollRequired && s.winner.None? && ValidRoll(roll)
    ensures |s.playerOrder| == 4 && PhaseInv(AfterProduction(s, roll, random)) && !InSetup(AfterProduction(s, roll, random))
  {
    hide Inv, CoreInv, BoardInv, ResourceInv, CardInv, AwardInv, PointInv, MoveInv, TargetInv, FreeRoadInv, OverInv,
      EffectInv, SetupPhaseInv, HandsOf, HoldingsOf, Points, ProducedPlayers, ProducedBank;
    InPlay(s);
  }

  lemma ProductionIsSafe(s: GameState, roll: DiceRoll, random: RandomState)
    requires Inv(s) && s.turn.phase == RollRequired && s.winner.None? && s.pending.None?
    requires ValidRoll(roll) && ValidRandomState(random)
    ensures ProductionInputs(s)
    ensures Inv(AfterProduction(s, roll, random)) && ScoringAsserts(AfterProduction(s, roll, random))
  {
    hide Inv, CoreInv, CardInv, AwardInv, PointInv, ProducedPlayers, ProducedBank, SumHands, ScoringAsserts, Distinct, HoldingsOf,
      HandsOf, ResourceInv, ValidTopology, KnownOccupancy, WithinLimits, Spaced, AllAnchored, TradingAsserts, CardAsserts, PhaseInv,
      TurnInv, ProductionInputs;
    InPlay(s);
    ProductionInputsHold(s);
    ProducedHands(s, roll.total);
    var n := AfterProduction(s, roll, random);
    ProductionPhase(s, roll, random);
    HandsOnly(s, n);
    AllAsserts(n);
  }

  // The whole roll.
  lemma RollIsSafe(s: GameState)
    requires hide *; Inv(s) && s.turn.phase == RollRequired && s.winner.None? && s.pending.None?
    ensures ValidRandomState(s.random) && Safe(s, ExecuteRoll(s))
  {
    hide Inv, CoreInv, ResourceInv, CardInv, AwardInv, PointInv, BoardInv, PhaseInv, ScoringAsserts, ProductionInputs, NextInt,
      FourPlayers, TurnInv;
    InPlay(s);
    var (roll, random) := RollTwoDice(s.random);
    if roll.total == 7 {
      RollSevenIsSafe(s, roll, random);
    } else {
      ProductionIsSafe(s, roll, random);
    }
  }

  // Ending a turn.

  lemma IndexOfItem(order: seq<PlayerId>, i: int)
    requires Distinct(order) && 0 <= i < |order|
    ensures IndexOf(order, order[i]) == i
  {
    var found := order[i];
    assert found in order;
    hide IndexOf;
    var j := IndexOf(order, found);
    assert order[j] == order[i];
  }

  lemma NextInOrder(order: seq<PlayerId>, turn: TurnState)
    requires |order| == 4 && Distinct(order) && turn.turnNumber > 0 && turn.current == order[(turn.turnNumber - 1) % 4]
    ensures IndexOf(order, turn.current) == (turn.turnNumber - 1) % 4
    ensures order[(IndexOf(order, turn.current) + 1) % |order|] == order[turn.turnNumber % |order|]
  {
    hide Distinct;
    IndexOfItem(order, (turn.turnNumber - 1) % 4);
  }

  lemma TurnEnds(s: GameState, next: PlayerId)
    requires Inv(s) && s.turn.phase == Action && s.winner.None? && s.pending.None?
    requires next == s.playerOrder[s.turn.turnNumber % |s.playerOrder|]
    ensures CoreInv(AfterTurn(s, next)) && AwardInv(AfterTurn(s, next)) && !InSetup(AfterTurn(s, next))
  {
    hide Inv, CoreInv, ResourceInv, CardInv, AwardInv, PointInv, BoardInv, ActionInv, DiscardInv, MoveInv, TargetInv, FreeRoadInv,
      OverInv, EffectInv, SetupPhaseInv, HandsOf, HoldingsOf, Points;
    InPlay(s);
    var n := AfterTurn(s, next);
    CardInvLater(s.playerOrder, HoldingsOf(s.players), s.bank.deck, s.turn.turnNumber, n.turn.turnNumber);
    assert next in s.playerOrder;
    BoardTopology(s.board, s.players.Keys);
    AwardFrame(s, n);
    Assemble(n);
  }

  lemma EndTurnPasses(s: GameState)
    requires hide *; Inv(s) && s.turn.phase == Action
    ensures |s.playerOrder| == 4
    ensures ExecuteEndTurn(s)
         == ThenAssert(ResolveVictory(AfterTurn(s, s.playerOrder[s.turn.turnNumber % |s.playerOrder|])), ScoringAsserts)
  {
    hide Inv, CoreInv, ResourceInv, CardInv, AwardInv, PointInv, BoardInv, PhaseInv, ScoringAsserts, ResolveVictory, IndexOf,
      Distinct, CardAsserts, TradingAsserts, ValidRandomState, AfterTurn, ThenAssert;
    InPlay(s);
    NextInOrder(s.playerOrder, s.turn);
  }

  lemma EndTurnIsSafe(s: GameState)
    requires Inv(s) && s.turn.phase == Action && s.winner.None? && s.pending.None?
    ensures |s.playerOrder| > 0 && Safe(s, ExecuteEndTurn(s))
  {
    hide Inv, CoreInv, ResourceInv, CardInv, AwardInv, PointInv, BoardInv, PhaseInv, ScoringAsserts, ResolveVictory, IndexOf,
      Distinct, CardAsserts, TradingAsserts, ValidRandomState, FourPlayers, ExecuteEndTurn, TurnInv;
    EndTurnPasses(s);
    var next := s.playerOrder[s.turn.turnNumber % |s.playerOrder|];
    TurnEnds(s, next);
    ResolveFacts(AfterTurn(s, next));
    AllAsserts(ResolveVictory(AfterTurn(s, next)).state);
  }

  lemma NormalTurnIsSafe(s: GameState, env: Envelope)
    requires Inv(s)
    ensures Safe(s, ExecuteNormalTurn(s, env))
  {
    hide Inv, CoreInv, ScoringAsserts, ExecuteRoll, ExecuteEndTurn, FourPlayers, KnownEdges, ValidRandomState, CardAsserts,
      TradingAsserts;
    InvAsserts(s);
    if s.turn.phase == RollRequired && s.pending.None? && s.winner.None? {
      RollIsSafe(s);
    } else if s.turn.phase == Action && s.pending.None? && s.winner.None? {
      EndTurnIsSafe(s);
    }
  }
}
