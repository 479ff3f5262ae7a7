// No reachable unfinished state is stuck: some player always has an acceptable command.

module Progress {
  import opened Board
  import opened Bags
  import opened GameModel
  import opened LongestRoad
  import Words
  import opened SeededRandom
  import opened Production
  import opened Rules
  import opened Assertions
  import opened Engine
  import opened Invariants
  import opened InvariantsImplyAssertions
  import opened Geometry
  import opened Frames
  import opened SetupSafety
  import opened TurnSafety
  import opened Transfers
  import opened RobberSafety
  import opened BuildSafety
  import opened CardSafety
  import opened TradeSafety
  import opened Safety
  import opened Reachability

  // Setup: seven settlements cannot block 54 vertices.

  function Zone(t: Topology, w: VertexId): set<VertexId>
    requires w in t.vertices
  {
    {w} + set v | v in t.vertices[w].adjacentVertexIds
  }

  // The vertices where the distance rule forbids a settlement.
  function BlockedVertices(t: Topology, occupied: set<VertexId>): set<VertexId> {
    set v | v in t.vertices && (v in occupied || exists w :: w in t.vertices[v].adjacentVertexIds && w in occupied)
  }

  lemma {:induction false} ItemsBound<T>(s: seq<T>)
    ensures |set x | x in s| <= |s|
  {
    if s == [] {
      assert (set x | x in s) == {};
    } else {
      ItemsBound(s[1..]);
      assert (set x | x in s) == {s[0]} + set x | x in s[1..];
    }
  }

  lemma ZoneBound(t: Topology, w: VertexId)
    requires ValidTopology(t) && w in t.vertices
    ensures |Zone(t, w)| <= 4
  {
    assert ValidVertex(t, w);
    ItemsBound(t.vertices[w].adjacentVertexIds);
  }

  lemma SubsetBound<T>(a: set<T>, b: set<T>)
    requires a <= b
    ensures |a| <= |b|
  {
    assert b == a + (b - a);
  }

  lemma BiggerHasMore<T>(a: set<T>, b: set<T>) returns (x: T)
    requires |a| > |b|
    ensures x in a && x !in b
  {
    if a <= b {
      SubsetBound(a, b);
    }
    x :| x in a && x !in b;
  }

  // Each settlement blocks its own vertex and at most three more.
  lemma {:induction false} BlockedBound(t: Topology, occupied: set<VertexId>)
    requires ValidTopology(t) && occupied <= t.vertices.Keys
    ensures |BlockedVertices(t, occupied)| <= 4 * |occupied|
    decreases |occupied|
  {
    if occupied == {} {
      assert BlockedVertices(t, occupied) == {};
    } else {
      var w := NonEmptySet(occupied);
      var rest := occupied - {w};
      BlockedBound(t, rest);
      ZoneBound(t, w);
      forall v | v in BlockedVertices(t, occupied) ensures v in Zone(t, w) + BlockedVertices(t, rest) {
        if v !in BlockedVertices(t, rest) && v != w {
          NeighboursAreMutual(t, v, w);
        }
      }
      SubsetBound(BlockedVertices(t, occupied), Zone(t, w) + BlockedVertices(t, rest));
    }
  }

  lemma FreeVertexExists(b: BoardState) returns (v: VertexId)
    requires ValidTopology(b.topology) && b.buildings.Keys <= b.topology.vertices.Keys && |b.buildings| <= 7
    ensures v in b.topology.vertices && v !in b.buildings && !HasOccupiedNeighbour(b, v)
  {
    var t := b.topology;
    BlockedBound(t, b.buildings.Keys);
    assert |b.buildings.Keys| == |b.buildings| && |t.vertices.Keys| == |t.vertices|;
    hide ValidTopology;
    v := BiggerHasMore(t.vertices.Keys, BlockedVertices(t, b.buildings.Keys));
  }

  lemma SettlementTurn(s: GameState) returns (v: VertexId)
    requires Inv(s) && s.turn.phase == SetupSettlement
    ensures ValidateInitialSettlement(s, s.turn.current, v).None?
  {
    hide ResourceInv, CardInv, AwardInv, PointInv, BuildingsOf, RoadsOf, TouchesOwnBuilding, AllAnchored, Spaced, WithinLimits,
      ValidContents, HasOccupiedNeighbour, ValidTopology;
    OpenCore(s);
    assert s.turn.setup.Some?;
    var setup := s.turn.setup.value;
    var k := ExpectedSetupIndex(setup);
    assert 0 <= k < 4 && s.turn.current == s.playerOrder[k];
    FewBuildings(s.board, s.players.Keys);
    v := FreeVertexExists(s.board);
  }

  lemma FewBuildings(b: BoardState, players: set<PlayerId>)
    requires BoardInv(b, players)
    ensures ValidTopology(b.topology) && b.buildings.Keys <= b.topology.vertices.Keys
  {
    hide ValidTopology, WithinLimits, Spaced, AllAnchored;
    if !(b.buildings.Keys <= b.topology.vertices.Keys) {
      var v := Outside(b.buildings.Keys, b.topology.vertices.Keys);
    }
  }

  lemma Outside<T>(a: set<T>, b: set<T>) returns (x: T)
    requires !(a <= b)
    ensures x in a && x !in b
  {
    x :| x in a && x !in b;
  }

  lemma RoadTurn(s: GameState) returns (e: EdgeId)
    requires hide *; Inv(s) && s.turn.phase == SetupRoad && s.turn.setup.Some? && s.turn.setup.value.pendingVertex.Some?
    ensures ValidateInitialRoad(s, s.turn.current, e, s.turn.setup.value.pendingVertex.value).None?
  {
    hide ResourceInv, CardInv, AwardInv, PointInv, BuildingsOf, RoadsOf, TouchesOwnBuilding, AllAnchored, Spaced, WithinLimits,
      ValidContents, KnownOccupancy;
    OpenCore(s);
    var setup := s.turn.setup.value;
    var v := setup.pendingVertex.value;
    assert v in s.board.topology.vertices && ValidVertex(s.board.topology, v);
    e := s.board.topology.vertices[v].edgeIds[0];
    assert e in s.board.topology.vertices[v].edgeIds;
    var k := ExpectedSetupIndex(setup);
    assert 0 <= k < 4 && s.turn.current == s.playerOrder[k];
  }

  // Any number of cards up to a hand's size can be picked from it.
  function Least(x: int, y: int): int {
    if x < y then x else y
  }

  function PickCards(hand: Bag, n: int): Bag {
    var lumber := Least(hand.lumber, n);
    var brick := Least(hand.brick, n - lumber);
    var wool := Least(hand.wool, n - lumber - brick);
    var grain := Least(hand.grain, n - lumber - brick - wool);
    Bag(lumber, brick, wool, grain, n - lumber - brick - wool - grain)
  }

  lemma PickCardsFits(hand: Bag, n: int)
    requires hand.Complete() && 0 <= n <= hand.Total()
    ensures PickCards(hand, n).Complete() && PickCards(hand, n).Total() == n && hand.Covers(PickCards(hand, n))
  {
  }

  lemma OtherTile(b: BoardState) returns (tile: TileId)
    requires ValidTopology(b.topology)
    ensures tile in b.topology.tiles && tile != b.robberTileId
  {
    assert |b.topology.tiles.Keys| == 19;
    hide ValidTopology;
    tile := BiggerHasMore(b.topology.tiles.Keys, {b.robberTileId});
  }

  // What is known before looking for a command.
  lemma Basics(s: GameState)
    requires Inv(s)
    ensures TradingAsserts(s) && CardAsserts(s) && ScoringAsserts(s) && SetupAsserts(s) && KnownEdges(s.board)
    ensures ValidRandomState(s.random) && |s.playerOrder| == 4
    ensures s.turn.current in s.players && forall p :: p in s.playerOrder <==> p in s.players
  {
    hide Inv, CoreInv, TradingAsserts, CardAsserts, ScoringAsserts, SetupAsserts, KnownEdges, ValidRandomState;
    InvAsserts(s);
    InvImpliesSetup(s);
    PlayersAre(s);
    CurrentPlays(s);
  }

  lemma CurrentPlays(s: GameState)
    requires Inv(s)
    ensures s.turn.current in s.players
  {
    hide CoreInv, AwardInv;
  }

  function By(s: GameState, actor: PlayerId, command: Command): Envelope {
    Envelope(actor, s.stateVersion, command)
  }

  lemma SetupMoves(s: GameState) returns (env: Envelope)
    requires Inv(s) && InSetup(s)
    ensures Execute(s, env).Accepted?
  {
    hide Inv, CoreInv, TradingAsserts, CardAsserts, ScoringAsserts, SetupAsserts, KnownEdges, ValidRandomState, GrantFrom,
      ValidateInitialSettlement, ValidateInitialRoad, NextSetupTurn, ExecuteNormalTurn, ExecuteRobber, ExecutePaidBuilding,
      ExecuteCards, ExecuteTrading;
    Basics(s);
    SetupHasNothingPending(s);
    if s.turn.phase == SetupSettlement {
      var v := SettlementTurn(s);
      env := By(s, s.turn.current, PlaceInitialSettlement(v));
      StepIsSafe(s, env);
    } else {
      SetupRoadPending(s);
      var e := RoadTurn(s);
      env := By(s, s.turn.current, PlaceInitialRoad(e));
      StepIsSafe(s, env);
    }
  }

  lemma SetupRoadPending(s: GameState)
    requires hide *; Inv(s) && s.turn.phase == SetupRoad
    ensures s.turn.setup.Some? && s.turn.setup.value.pendingVertex.Some?
  {
    hide Inv;
    SetupRoadFacts(s, EdgeId(0, 0));
  }

  // Rolling, or ending the turn.
  lemma TurnMoves(s: GameState) returns (env: Envelope)
    requires Inv(s) && IsEffectPhase(s.turn.phase) && s.pending.None? && s.winner.None?
    ensures Execute(s, env).Accepted?
  {
    hide Inv, CoreInv, TradingAsserts, CardAsserts, ScoringAsserts, SetupAsserts, KnownEdges, ValidRandomState, ExecuteSetup,
      ExecuteRobber, ExecutePaidBuilding, ExecuteCards, ExecuteTrading, NextInt, ProductionInputs, AfterSeven, AfterProduction,
      AfterTurn;
    Basics(s);
    env := By(s, s.turn.current, if s.turn.phase == RollRequired then RollDice else EndTurn);
    StepIsSafe(s, env);
    hide Points, RevealPoints, LongestRoadLength;
    if s.turn.phase == Action {
      var index := IndexOf(s.playerOrder, s.turn.current);
      assert !ResolveVictory(AfterTurn(s, s.playerOrder[(index + 1) % |s.playerOrder|])).Rejected?;
    }
  }

  // Taking an Invention or a Monopoly, or turning a trade offer down.
  lemma EffectMoves(s: GameState) returns (env: Envelope)
    requires Inv(s) && IsEffectPhase(s.turn.phase) && s.pending.Some?
    ensures Execute(s, env).Accepted?
  {
    hide Inv, CoreInv, TradingAsserts, CardAsserts, ScoringAsserts, SetupAsserts, KnownEdges, ValidRandomState, ExecuteSetup,
      ExecuteRobber, ExecutePaidBuilding, ExecuteNormalTurn, EffectInv, PendingNamesKnown, TradeCoherent, MonopolyPlayers;
    Basics(s);
    EffectIs(s);
    match s.pending.value {
      case RespondToTrade(responder, offer, _) =>
        env := By(s, responder, RejectTrade(offer.tradeId));
        StepIsSafe(s, env);
      case ChooseInvention(actor, _) =>
        EffectShape(s);
        BankIsComplete(s);
        PickCardsFits(s.bank.resources, 2);
        env := By(s, actor, TakeInvention(PickCards(s.bank.resources, 2)));
        StepIsSafe(s, env);
      case ChooseMonopoly(actor, _) =>
        EffectShape(s);
        env := By(s, actor, TakeMonopoly(Ore));
        StepIsSafe(s, env);
      case _ =>
    }
  }

  lemma EffectIs(s: GameState)
    requires hide *; Inv(s) && IsEffectPhase(s.turn.phase) && s.pending.Some?
    ensures s.winner.None?
    ensures s.pending.value.ChooseInvention? || s.pending.value.ChooseMonopoly?
            || (s.pending.value.RespondToTrade? && s.pending.value.responder in s.players)
  {
    hide BoardInv, ResourceInv, CardInv, AwardInv, PointInv, SetupInv, TurnInv, PlayedReference, TradeCoherent, DiscardInv, MoveInv,
      TargetInv, FreeRoadInv, OverInv, FourPlayers;
    OpenCore(s);
    FourHave(s);
  }

  lemma FourHave(s: GameState)
    requires CoreInv(s)
    ensures |s.playerOrder| == 4
  {
    hide BoardInv, ResourceInv, CardInv, PhaseInv, SetupInv, TurnInv, Distinct;
    OpenCore(s);
  }

  lemma BankIsComplete(s: GameState)
    requires Inv(s)
    ensures s.bank.resources.Complete()
  {
    hide BoardInv, CardInv, PhaseInv, SetupInv, TurnInv, AwardInv, PointInv, FourPlayers, SumHands;
    OpenCore(s);
  }

  // A discard that is still owed.
  lemma DiscardMoves(s: GameState) returns (env: Envelope)
    requires Inv(s) && s.turn.phase == DiscardRequired
    ensures Execute(s, env).Accepted?
  {
    hide Inv, CoreInv, TradingAsserts, CardAsserts, ScoringAsserts, SetupAsserts, KnownEdges, ValidRandomState, ExecuteSetup,
      ExecuteCards, ExecuteTrading, ExecutePaidBuilding, ExecuteNormalTurn, FilterOrder, AfterDiscard, PickCards;
    Basics(s);
    DiscardShape(s);
    var p := SomeoneOwes(s);
    HandIsComplete(s, p);
    var required := s.pending.value.required[p];
    PickCardsFits(s.players[p].resources, required);
    env := By(s, p, Discard(PickCards(s.players[p].resources, required)));
    StepIsSafe(s, env);
  }

  lemma SomeoneOwes(s: GameState) returns (p: PlayerId)
    requires DiscardInv(s.playerOrder, s.players, s.turn, s.pending)
    ensures s.pending.Some? && s.pending.value.DiscardResources?
    ensures p in s.pending.value.required && p !in s.pending.value.completed && p in s.players
    ensures 0 < s.pending.value.required[p] == s.players[p].resources.Total() / 2
  {
    hide FilterOrder;
    var done := set q | q in s.pending.value.completed;
    p :| p in s.pending.value.required && p !in done;
  }

  lemma HandIsComplete(s: GameState, p: PlayerId)
    requires hide *; Inv(s) && p in s.players
    ensures s.players[p].resources.Complete()
  {
    hide CoreInv, AwardInv, PointInv;
    CoreHands(s);
  }

  lemma CoreHands(s: GameState)
    requires hide *; CoreInv(s)
    ensures forall p :: p in s.players ==> s.players[p].resources.Complete()
  {
    hide BoardInv, CardInv, PhaseInv, SetupInv, TurnInv, SumHands;
    OpenCore(s);
    PlayersAre(s);
    forall p | p in s.players ensures s.players[p].resources.Complete() {
      assert HandsOf(s.players)[p] == s.players[p].resources;
    }
  }

  // Moving the robber to any other tile.
  lemma RobberMoves(s: GameState) returns (env: Envelope)
    requires Inv(s) && s.turn.phase == RobberMoveRequired
    ensures Execute(s, env).Accepted?
  {
    hide Inv, CoreInv, TradingAsserts, CardAsserts, ScoringAsserts, SetupAsserts, KnownEdges, ValidRandomState, ExecuteSetup,
      ExecuteCards, ExecuteTrading, ExecutePaidBuilding, ExecuteNormalTurn, EligibleTargets, AfterMove, MoveInv, ValidTopology;
    Basics(s);
    MoveShape(s);
    TopologyHolds(s);
    var tile := OtherTile(s.board);
    env := By(s, s.turn.current, Move(tile));
    StepIsSafe(s, env);
    hide Points, RevealPoints, LongestRoadLength;
    var targets := EligibleTargets(s.board, s.players, s.playerOrder, tile, s.turn.current);
    assert !ResolveVictory(AfterMove(s, tile, targets)).Rejected?;
  }

  lemma TopologyHolds(s: GameState)
    requires Inv(s)
    ensures ValidTopology(s.board.topology)
  {
    hide CoreInv, AwardInv, PointInv, ValidTopology;
    CoreImpliesSetup(s);
  }

  // Stealing from the first eligible player.
  lemma StealMoves(s: GameState) returns (env: Envelope)
    requires Inv(s) && s.turn.phase == RobberTargetRequired
    ensures Execute(s, env).Accepted?
  {
    hide Inv, CoreInv, TradingAsserts, CardAsserts, ScoringAsserts, SetupAsserts, KnownEdges, ValidRandomState, ExecuteSetup,
      ExecuteCards, ExecuteTrading, ExecutePaidBuilding, ExecuteNormalTurn, AfterSteal, NextInt, ResourceAt;
    Basics(s);
    TargetShape(s);
    FirstEligible(s);
    var target := s.pending.value.eligible[0];
    assert target in s.pending.value.eligible;
    env := By(s, s.turn.current, Steal(target));
    StepIsSafe(s, env);
    TargetHolds(s, target);
    hide Points, RevealPoints, LongestRoadLength;
    var (resource, random) := DrawRandomResource(s.players[target].resources, s.random);
    assert !ResolveVictory(AfterSteal(s, s.turn.current, target, resource, random)).Rejected?;
  }

  lemma FirstEligible(s: GameState)
    requires TargetInv(s.board, s.players, s.playerOrder, s.turn, s.pending)
    ensures s.pending.Some? && s.pending.value.ChooseRobberTarget? && s.pending.value.eligible != []
  {
    hide EligibleTargets;
  }

  lemma TargetHolds(s: GameState, target: PlayerId)
    requires hide *; Inv(s) && s.turn.phase == RobberTargetRequired
    requires s.pending.Some? && s.pending.value.ChooseRobberTarget? && target in s.pending.value.eligible
    ensures target in s.players && target != s.turn.current
    ensures s.players[target].resources.Complete() && 0 < s.players[target].resources.Total() <= Words.UINT32_RANGE
  {
    OpenCore(s);
    InPlay(s);
    TargetFacts(s, target);
  }

  // Building a free road, or finishing when none can be built.
  lemma FreeRoadMoves(s: GameState) returns (env: Envelope)
    requires Inv(s) && s.turn.phase == FreeRoadPlacement
    ensures Execute(s, env).Accepted?
  {
    hide Inv, CoreInv, TradingAsserts, CardAsserts, ScoringAsserts, SetupAsserts, ValidRandomState, ExecuteSetup,
      ExecuteRobber, ExecuteTrading, ExecutePaidBuilding, ExecuteNormalTurn, AfterFreeRoad, ClassifyConnection, RoadsOf,
      DerivedAwards, PlayedReference;
    Basics(s);
    FreeRoadShape(s);
    if HasLegalFreeRoad(s.board, s.turn.current) {
      var e :| e in s.board.topology.edges && ValidateFreeRoad(s.board, s.turn.current, e).None?;
      env := By(s, s.turn.current, BuildRoad(e));
      StepIsSafe(s, env);
      FreeRoadNotRefused(s, e);
    } else {
      env := By(s, s.turn.current, FinishFreeRoads);
      StepIsSafe(s, env);
    }
  }

  lemma FreeRoadNotRefused(s: GameState, e: EdgeId)
    requires s.turn.current in s.players && KnownEdges(s.board)
    requires s.pending.Some? && s.pending.value.PlaceFreeRoads?
    requires e in s.board.topology.edges && ValidateFreeRoad(s.board, s.turn.current, e).None?
    ensures !ExecuteFreeRoad(s, s.turn.current, e).Rejected?
  {
    hide CardAsserts, ScoringAsserts, ScoringInputAsserts, ValidateFreeRoad, DerivedAwards, Points, RevealPoints;
  }

  // The progress theorem.
  lemma NoStateIsStuck(s: GameState) returns (env: Envelope)
    requires Reachable(s) && s.winner.None?
    ensures Execute(s, env).Accepted?
  {
    hide Inv, Reachable, Execute;
    ReachableInv(s);
    WinnersAreCurrent(s);
    match s.turn.phase
    case SetupSettlement => env := SetupMoves(s);
    case SetupRoad => env := SetupMoves(s);
    case RollRequired => if s.pending.Some? { env := EffectMoves(s); } else { env := TurnMoves(s); }
    case Action => if s.pending.Some? { env := EffectMoves(s); } else { env := TurnMoves(s); }
    case DiscardRequired => env := DiscardMoves(s);
    case RobberMoveRequired => env := RobberMoves(s);
    case RobberTargetRequired => env := StealMoves(s);
    case FreeRoadPlacement => env := FreeRoadMoves(s);
    case GameOver =>
      assert false;
  }
}
