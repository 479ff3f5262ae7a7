// What holds of every reachable state: stronger than the runtime assertions, and inductive.

module Invariants {
  import opened Board
  import opened Bags
  import opened GameModel
  import opened LongestRoad
  import opened SeededRandom
  import opened Production
  import opened Rules
  import opened Assertions
  import opened Engine

  // Geometry.

  predicate TouchesOwnBuilding(b: BoardState, p: PlayerId, e: EdgeId) {
    e in b.topology.edges && (OwnsBuilding(b, p, b.topology.edges[e].a) || OwnsBuilding(b, p, b.topology.edges[e].b))
  }

  predicate Meet(t: Topology, e: EdgeId, f: EdgeId) {
    && e in t.edges && f in t.edges
    && (t.edges[e].a == t.edges[f].a || t.edges[e].a == t.edges[f].b
        || t.edges[e].b == t.edges[f].a || t.edges[e].b == t.edges[f].b)
  }

  // At most k steps over p's own roads lead from e to one of p's buildings.
  ghost predicate Anchored(b: BoardState, p: PlayerId, e: EdgeId, k: nat)
    decreases k
  {
    && OwnsRoad(b, p, e)
    && (TouchesOwnBuilding(b, p, e)
        || (k > 0 && exists f :: Anchored(b, p, f, k - 1) && Meet(b.topology, e, f)))
  }

  ghost predicate IsAnchored(b: BoardState, p: PlayerId, e: EdgeId) {
    exists k: nat :: Anchored(b, p, e, k)
  }

  ghost predicate AllAnchored(b: BoardState) {
    forall e :: e in b.roads ==> IsAnchored(b, b.roads[e], e)
  }

  // The distance rule: no two adjacent vertices are both occupied.
  ghost predicate Spaced(b: BoardState) {
    forall v :: v in b.buildings ==> v in b.topology.vertices && !HasOccupiedNeighbour(b, v)
  }

  ghost predicate BoardInv(b: BoardState, players: set<PlayerId>) {
    && ValidTopology(b.topology) && ValidContents(b)
    && KnownOccupancy(b, players) && WithinLimits(b, players)
    && Spaced(b) && AllAnchored(b)
  }

  // Cards and resources.

  ghost predicate ResourceInv(order: seq<PlayerId>, hands: map<PlayerId, Bag>, bank: Bag) {
    && bank.Complete()
    && (forall p :: p in order ==> p in hands && hands[p].Complete())
    && bank.Plus(SumHands(order, hands)) == STANDARD_SUPPLY
  }

  ghost predicate CardInv(order: seq<PlayerId>, holdings: map<PlayerId, Holding>, deck: seq<CardDefinition>, turnNumber: int) {
    && ValidDeck(deck)
    && (forall p :: p in order ==> p in holdings && ValidHolding(holdings[p], turnNumber))
    && AllCardIds(order, holdings, deck) == StandardIds()
  }

  // Phases and pending decisions. Each predicate names just the fields it reads.

  predicate IsSetupPhase(phase: Phase) {
    phase == SetupSettlement || phase == SetupRoad
  }

  ghost predicate SetupPhaseInv(order: seq<PlayerId>, b: BoardState, turn: TurnState)
    requires |order| == 4
  {
    && turn.turnNumber == 0 && turn.lastRoll.None? && !turn.cardPlayed
    && turn.setup.Some?
    && (var setup := turn.setup.value;
        && (setup.round == 1 || setup.round == 2)
        && 0 <= setup.placementIndex <= 3
        && turn.current == order[ExpectedSetupIndex(setup)]
        && (turn.phase == SetupSettlement ==> setup.pendingVertex.None?)
        && (turn.phase == SetupRoad ==>
              && setup.pendingVertex.Some?
              && setup.pendingVertex.value in b.buildings
              && b.buildings[setup.pendingVertex.value] == Building(Settlement, turn.current)))
  }

  // An Invention choice waits only while the bank holds two cards.
  ghost predicate EffectInv(players: map<PlayerId, PlayerState>, bank: Bag, current: PlayerId, pending: Pending) {
    match pending
    case ChooseInvention(actor, id) =>
      actor == current && PlayedReference(players, actor, id, Invention) && bank.Total() >= 2
    case ChooseMonopoly(actor, id) =>
      actor == current && PlayedReference(players, actor, id, Monopoly)
    case _ => false
  }

  ghost predicate DiscardInv(
    order: seq<PlayerId>, players: map<PlayerId, PlayerState>, turn: TurnState, pending: Option<Pending>)
  {
    && RolledSeven(turn) && pending.Some? && pending.value.DiscardResources?
    && (var required, completed := pending.value.required, pending.value.completed;
        var done := set p | p in completed;
        && pending.value.trigger == turn.current
        && required.Keys <= players.Keys
        && (forall p :: p in required ==> required[p] > 0)
        && completed == FilterOrder(order, done)
        && done <= required.Keys
        && (exists p :: p in required && p !in done)
        && (forall p :: p in required && p !in done ==> required[p] == players[p].resources.Total() / 2))
  }

  ghost predicate CauseInv(players: map<PlayerId, PlayerState>, turn: TurnState, cause: RobberCause) {
    if cause.DiceSeven? then RolledSeven(turn) else PlayedReference(players, turn.current, cause.cardId, Knight)
  }

  ghost predicate MoveInv(players: map<PlayerId, PlayerState>, turn: TurnState, pending: Option<Pending>) {
    && pending.Some? && pending.value.MoveRobber? && pending.value.actor == turn.current
    && CauseInv(players, turn, pending.value.cause)
  }

  ghost predicate TargetInv(
    b: BoardState, players: map<PlayerId, PlayerState>, order: seq<PlayerId>, turn: TurnState, pending: Option<Pending>)
  {
    && b.robberTileId in b.topology.tiles
    && (forall p :: p in order ==> p in players)
    && pending.Some? && pending.value.ChooseRobberTarget? && pending.value.actor == turn.current
    && pending.value.tile == b.robberTileId
    && pending.value.eligible != []
    && pending.value.eligible == EligibleTargets(b, players, order, b.robberTileId, turn.current)
    && CauseInv(players, turn, pending.value.cause)
  }

  // Two free roads remain only while some road can be placed.
  ghost predicate FreeRoadInv(b: BoardState, players: map<PlayerId, PlayerState>, turn: TurnState, pending: Option<Pending>) {
    && pending.Some? && pending.value.PlaceFreeRoads?
    && pending.value.actor == turn.current
    && (pending.value.remaining == 1 || pending.value.remaining == 2)
    && PlayedReference(players, turn.current, pending.value.cardId, RoadBuilding)
    && KnownEdges(b)
    && (pending.value.remaining == 2 ==> HasLegalFreeRoad(b, turn.current))
  }

  ghost predicate ActionInv(
    players: map<PlayerId, PlayerState>, bank: Bag, turn: TurnState, pending: Option<Pending>, winner: Option<PlayerId>)
  {
    && turn.lastRoll.Some?
    && (pending.Some? ==>
          if pending.value.RespondToTrade? then
            PendingNamesKnown(pending.value, players.Keys) && TradeCoherent(players, turn, pending, winner)
          else EffectInv(players, bank, turn.current, pending.value))
  }

  ghost predicate OverInv(
    b: BoardState, awards: Awards, players: map<PlayerId, PlayerState>, turn: TurnState,
    pending: Option<Pending>, winner: Option<PlayerId>)
  {
    && pending.None? && winner == Some(turn.current) && turn.current in players
    && Points(b, awards, turn.current, players[turn.current].cards) >= VICTORY_TARGET
    && NoHiddenPoints(players[turn.current].cards)
  }

  ghost predicate PhaseInv(s: GameState)
    requires |s.playerOrder| == 4
  {
    if InSetup(s) then s.winner.None? && s.pending.None? && SetupPhaseInv(s.playerOrder, s.board, s.turn)
    else
      && s.turn.setup.None?
      && (s.turn.lastRoll.Some? ==> ValidRoll(s.turn.lastRoll.value))
      && (s.turn.phase == GameOver <==> s.winner.Some?)
      && (s.turn.phase == RollRequired ==>
            && s.turn.lastRoll.None?
            && (s.pending.Some? ==> EffectInv(s.players, s.bank.resources, s.turn.current, s.pending.value)))
      && (s.turn.phase == Action ==> ActionInv(s.players, s.bank.resources, s.turn, s.pending, s.winner))
      && (s.turn.phase == DiscardRequired ==> DiscardInv(s.playerOrder, s.players, s.turn, s.pending))
      && (s.turn.phase == RobberMoveRequired ==> MoveInv(s.players, s.turn, s.pending))
      && (s.turn.phase == RobberTargetRequired ==> TargetInv(s.board, s.players, s.playerOrder, s.turn, s.pending))
      && (s.turn.phase == FreeRoadPlacement ==> FreeRoadInv(s.board, s.players, s.turn, s.pending))
      && (s.turn.phase == GameOver ==> OverInv(s.board, s.awards, s.players, s.turn, s.pending, s.winner))
  }

  // Setup bookkeeping.

  // How many setup turns the player at order index k has finished.
  function FinishedSetupTurns(setup: SetupState, k: int): int {
    if setup.round == 1 then (if k < setup.placementIndex then 1 else 0)
    else 1 + (if 3 - k < setup.placementIndex then 1 else 0)
  }

  function SetupTurnsDone(setup: SetupState): int {
    4 * (setup.round - 1) + setup.placementIndex
  }

  function Half(phase: Phase): int {
    if phase == SetupRoad then 1 else 0
  }

  ghost predicate SetupPieces(order: seq<PlayerId>, b: BoardState, setup: SetupState, half: int)
    requires |order| == 4
  {
    && |b.buildings| == SetupTurnsDone(setup) + half
    && (forall k {:trigger order[k]} :: 0 <= k < 4 ==>
          && |BuildingsOf(b, order[k], Settlement)|
             == FinishedSetupTurns(setup, k) + (if k == ExpectedSetupIndex(setup) then half else 0)
          && |BuildingsOf(b, order[k], City)| == 0
          && |RoadsOf(b, order[k])| == FinishedSetupTurns(setup, k))
    && (forall e :: e in b.roads ==> TouchesOwnBuilding(b, b.roads[e], e))
  }

  // The edges of a freshly placed settlement are all free.
  ghost predicate FreshSettlement(b: BoardState, v: VertexId) {
    v in b.topology.vertices && forall e :: e in b.topology.vertices[v].edgeIds ==> e !in b.roads
  }

  function SupplyFloor(setup: SetupState, half: int): Bag {
    var floor := if setup.round == 1 then 19 else 19 - 3 * (setup.placementIndex + half);
    Bag(floor, floor, floor, floor, floor)
  }

  ghost predicate SetupInv(
    stateVersion: int, order: seq<PlayerId>, b: BoardState, players: map<PlayerId, PlayerState>, bank: Bag, turn: TurnState)
    requires |order| == 4
  {
    IsSetupPhase(turn.phase) && turn.setup.Some? ==>
      && stateVersion == 2 * SetupTurnsDone(turn.setup.value) + Half(turn.phase)
      && SetupPieces(order, b, turn.setup.value, Half(turn.phase))
      && (turn.phase == SetupRoad ==>
            turn.setup.value.pendingVertex.Some? && FreshSettlement(b, turn.setup.value.pendingVertex.value))
      && (forall p :: p in players ==> players[p].cards == [])
      && bank.Covers(SupplyFloor(turn.setup.value, Half(turn.phase)))
  }

  // Turn n belongs to the player at order index (n - 1) mod 4.
  ghost predicate TurnInv(stateVersion: int, order: seq<PlayerId>, turn: TurnState)
    requires |order| == 4
  {
    !IsSetupPhase(turn.phase) ==>
      turn.turnNumber > 0 && stateVersion >= 16 && turn.current == order[(turn.turnNumber - 1) % 4]
  }

  // Awards and points.

  datatype Award = LongestRoad | LargestArmy

  function Holder(awards: Awards, award: Award): Option<PlayerId> {
    if award == LongestRoad then awards.longestRoad else awards.largestArmy
  }

  // The award is where deriving it again would leave it.
  ghost predicate IsSettled(s: GameState, award: Award) {
    Holder(s.awards, award) == Holder(DerivedAwards(s), award)
  }

  ghost predicate AwardInv(s: GameState) {
    forall award {:trigger IsSettled(s, award)} :: IsSettled(s, award)
  }

  lemma OpenAwards(s: GameState)
    ensures AwardInv(s) <==> s.awards == DerivedAwards(s)
  {
    hide DerivedAwards;
    if AwardInv(s) {
      assert IsSettled(s, LongestRoad) && IsSettled(s, LargestArmy);
    }
  }

  predicate KnightPending(s: GameState) {
    s.pending.Some?
    && ((s.pending.value.MoveRobber? && s.pending.value.cause.KnightCause?)
        || (s.pending.value.ChooseRobberTarget? && s.pending.value.cause.KnightCause?))
  }

  ghost predicate PointInv(s: GameState) {
    s.turn.current in s.players
    && (!InSetup(s) && s.winner.None? && !KnightPending(s) ==> ActualPoints(s, s.turn.current) < VICTORY_TARGET)
  }

  // The clauses of the invariant, apart from the awards and the point bound. Each is looked up
  // by name, so that a proof sees only the clauses it asks for.
  datatype Clause = NumberClause | BoardClause | ResourceClause | CardClause | PhaseClause | SetupClause | TurnClause

  ghost predicate ClauseHolds(s: GameState, c: Clause)
    requires FourPlayers(s)
  {
    match c
    case NumberClause => s.stateVersion >= 0 && ValidRandomState(s.random)
    case BoardClause => BoardInv(s.board, s.players.Keys)
    case ResourceClause => ResourceInv(s.playerOrder, HandsOf(s.players), s.bank.resources)
    case CardClause => CardInv(s.playerOrder, HoldingsOf(s.players), s.bank.deck, s.turn.turnNumber)
    case PhaseClause => PhaseInv(s)
    case SetupClause => SetupInv(s.stateVersion, s.playerOrder, s.board, s.players, s.bank.resources, s.turn)
    case TurnClause => TurnInv(s.stateVersion, s.playerOrder, s.turn)
  }

  ghost predicate CoreInv(s: GameState) {
    FourPlayers(s) && forall c {:trigger ClauseHolds(s, c)} :: ClauseHolds(s, c)
  }

  ghost predicate Inv(s: GameState) {
    CoreInv(s) && AwardInv(s) && PointInv(s)
  }

  lemma OpenCore(s: GameState)
    requires CoreInv(s)
    ensures s.stateVersion >= 0 && ValidRandomState(s.random)
    ensures BoardInv(s.board, s.players.Keys)
    ensures ResourceInv(s.playerOrder, HandsOf(s.players), s.bank.resources)
    ensures CardInv(s.playerOrder, HoldingsOf(s.players), s.bank.deck, s.turn.turnNumber)
    ensures PhaseInv(s)
    ensures SetupInv(s.stateVersion, s.playerOrder, s.board, s.players, s.bank.resources, s.turn)
    ensures TurnInv(s.stateVersion, s.playerOrder, s.turn)
  {
    hide BoardInv, ResourceInv, CardInv, PhaseInv, SetupInv, TurnInv, ValidRandomState;
    assert ClauseHolds(s, NumberClause) && ClauseHolds(s, BoardClause) && ClauseHolds(s, ResourceClause);
    assert ClauseHolds(s, CardClause) && ClauseHolds(s, PhaseClause);
    assert ClauseHolds(s, SetupClause) && ClauseHolds(s, TurnClause);
  }

  // Award derivation.

  lemma {:induction false} MaxValueBounds(order: seq<PlayerId>, values: map<PlayerId, nat>, p: PlayerId)
    requires forall q :: q in order ==> q in values
    ensures p in order ==> values[p] <= MaxValue(order, values)
  {
    if order != [] {
      MaxValueBounds(order[1..], values, p);
    }
  }

  lemma {:induction false} LeadersAre(order: seq<PlayerId>, values: map<PlayerId, nat>, minimum: nat, maximum: nat)
    requires forall q :: q in order ==> q in values
    ensures forall p :: p in Leaders(order, values, minimum, maximum) <==>
                        p in order && values[p] >= minimum && values[p] == maximum
  {
    if order != [] {
      LeadersAre(order[1..], values, minimum, maximum);
    }
  }

  // A holder meets the minimum and nobody beats it.
  lemma HolderLeads(order: seq<PlayerId>, values: map<PlayerId, nat>, holder: Option<PlayerId>, minimum: nat)
    requires forall q :: q in order ==> q in values
    requires values.Keys == set q | q in order
    ensures var next := DeriveHolder(order, values, holder, minimum);
            next.Some? ==>
              && next.value in order && values[next.value] >= minimum
              && values[next.value] == MaxValue(order, values)
              && forall p :: p in order ==> values[p] <= values[next.value]
  {
    var maximum := MaxValue(order, values);
    forall p | p in order ensures values[p] <= maximum {
      MaxValueBounds(order, values, p);
    }
    LeadersAre(order, values, minimum, maximum);
    var leaders := Leaders(order, values, minimum, maximum);
    if |leaders| == 1 {
      var leader := leaders[0];
      assert leader in leaders;
    }
  }

  // Deriving again changes nothing.
  lemma DeriveIsIdempotent(order: seq<PlayerId>, values: map<PlayerId, nat>, holder: Option<PlayerId>, minimum: nat)
    requires forall q :: q in order ==> q in values
    requires values.Keys == set q | q in order
    ensures var next := DeriveHolder(order, values, holder, minimum);
            DeriveHolder(order, values, next, minimum) == next
  {
    HolderLeads(order, values, holder, minimum);
  }
}
