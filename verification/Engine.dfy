// The step function: one command against one state. Every runtime assertion the
// source evaluates is evaluated here too, and a failing one yields `Threw`.

module Engine {
  import opened Board
  import opened Bags
  import opened GameModel
  import opened LongestRoad
  import Words
  import opened SeededRandom
  import opened Production
  import opened Rules
  import opened Assertions

  // The guards every sub-engine starts with.
  function CommonGuard(s: GameState, env: Envelope): Option<Violation> {
    if env.expectedStateVersion != s.stateVersion then Some(StaleStateVersion)
    else if env.actor !in s.players then Some(UnknownActor)
    else if s.winner.Some? || s.turn.phase == GameOver then Some(GameIsOver)
    else None
  }

  // The guards of a command that only the current player may give, with nothing pending.
  function OwnTurnGuard(s: GameState, env: Envelope): Option<Violation> {
    var common := CommonGuard(s, env);
    if common.Some? then common
    else if s.pending.Some? then Some(PendingDecisionRequired)
    else if env.actor != s.turn.current then Some(NotYourTurn)
    else None
  }

  // Setup.

  function NextSetupTurn(s: GameState): Option<TurnState>
    requires |s.playerOrder| == 4
  {
    if s.turn.setup.None? then None
    else
      var setup := s.turn.setup.value;
      if setup.round == 1 then
        if setup.placementIndex < 3 then
          if 0 <= setup.placementIndex + 1 then
            Some(s.turn.(current := s.playerOrder[setup.placementIndex + 1], phase := SetupSettlement,
                         setup := Some(SetupState(1, setup.placementIndex + 1, None))))
          else None
        else
          Some(s.turn.(current := s.playerOrder[3], phase := SetupSettlement, setup := Some(SetupState(2, 0, None))))
      else if setup.placementIndex < 3 then
        var orderIndex := 3 - (setup.placementIndex + 1);
        if orderIndex < 4 then
          Some(s.turn.(current := s.playerOrder[orderIndex], phase := SetupSettlement,
                       setup := Some(SetupState(2, setup.placementIndex + 1, None))))
        else None
      else
        Some(TurnState(1, s.playerOrder[0], RollRequired, None, None, false))
  }

  ghost function PlaceSettlement(s: GameState, actor: PlayerId, v: VertexId): EngineResult {
    var violation := ValidateInitialSettlement(s, actor, v);
    if violation.Some? then Rejected(violation.value)
    else if s.turn.setup.None? then Threw
    else
      var setup := s.turn.setup.value;
      var board := s.board.(buildings := s.board.buildings[v := Building(Settlement, actor)]);
      var turn := s.turn.(phase := SetupRoad, setup := Some(setup.(pendingVertex := Some(v))));
      var placed := s.(stateVersion := s.stateVersion + 1, board := board, turn := turn);
      if setup.round == 2 then
        var grant := GrantStartingResources(s.(board := board), actor, v);
        if grant.None? then Threw
        else
          Asserted(SetupAsserts, placed.(players := WithHand(s.players, actor, grant.value.hand),
                                         bank := s.bank.(resources := grant.value.bank)))
      else Asserted(SetupAsserts, placed)
  }

  ghost function Asserted(assertion: GameState -> bool, s: GameState): EngineResult {
    if assertion(s) then Accepted(s) else Threw
  }

  ghost function PlaceRoad(s: GameState, actor: PlayerId, e: EdgeId): EngineResult
    requires |s.playerOrder| == 4
  {
    if s.turn.setup.None? || s.turn.setup.value.pendingVertex.None? then Threw
    else
      var violation := ValidateInitialRoad(s, actor, e, s.turn.setup.value.pendingVertex.value);
      if violation.Some? then Rejected(violation.value)
      else
        var turn := NextSetupTurn(s);
        if turn.None? then Threw
        else
          Asserted(SetupAsserts, s.(stateVersion := s.stateVersion + 1,
                                    board := s.board.(roads := s.board.roads[e := actor]), turn := turn.value))
  }

  ghost function ExecuteSetup(s: GameState, env: Envelope): EngineResult {
    if !SetupAsserts(s) then Threw
    else
      var guard := OwnTurnGuard(s, env);
      if guard.Some? then Rejected(guard.value)
      else if s.turn.phase == SetupSettlement && env.command.PlaceInitialSettlement? then
        PlaceSettlement(s, env.actor, env.command.vertexId)
      else if s.turn.phase == SetupRoad && env.command.PlaceInitialRoad? then
        PlaceRoad(s, env.actor, env.command.edgeId)
      else Rejected(WrongPhase)
  }

  // Awards and victory.

  function RoadLengths(s: GameState): map<PlayerId, nat> {
    map p | p in s.playerOrder :: LongestRoadLength(s.board, p)
  }

  function KnightCounts(s: GameState): map<PlayerId, nat> {
    map p | p in s.playerOrder ::
      if p in s.players && s.players[p].playedKnights >= 0 then s.players[p].playedKnights else 0
  }

  function DerivedAwards(s: GameState): Awards {
    Awards(DeriveHolder(s.playerOrder, RoadLengths(s), s.awards.longestRoad, LONGEST_ROAD_MINIMUM),
           DeriveHolder(s.playerOrder, KnightCounts(s), s.awards.largestArmy, LARGEST_ARMY_MINIMUM))
  }

  ghost function ReconcileAwards(s: GameState): EngineResult {
    if !ScoringInputAsserts(s) then Threw else Asserted(ScoringAsserts, s.(awards := DerivedAwards(s)))
  }

  ghost function ResolveVictory(s: GameState): EngineResult {
    if !ScoringAsserts(s) then Threw
    else if s.winner.Some? || s.turn.phase == GameOver || s.pending.Some? then Accepted(s)
    else
      var winner := s.turn.current;
      if ActualPoints(s, winner) < VICTORY_TARGET then Accepted(s)
      else
        var player := s.players[winner];
        Asserted(ScoringAsserts, s.(
          players := s.players[winner := player.(cards := RevealPoints(player.cards))],
          turn := s.turn.(phase := GameOver), pending := None, winner := Some(winner)))
  }

  ghost function ReconcileAndResolve(s: GameState): EngineResult {
    var awards := ReconcileAwards(s);
    if awards.Accepted? then ResolveVictory(awards.state) else awards
  }

  ghost function ThenAssert(result: EngineResult, assertion: GameState -> bool): EngineResult {
    if result.Accepted? then Asserted(assertion, result.state) else result
  }

  // Rolling and ending a turn.

  function RollTwoDice(r: RandomState): (result: (DiceRoll, RandomState))
    requires ValidRandomState(r)
    ensures ValidRoll(result.0) && ValidRandomState(result.1)
  {
    var first := NextInt(r, 1, 7);
    var second := NextInt(first.1, 1, 7);
    (DiceRoll(first.0, second.0, first.0 + second.0), second.1)
  }

  // Each die is the residue of an accepted word modulo six, counted from one; the second is drawn
  // from the state the first has left, and the game goes on from the state the second leaves.
  lemma RollIsTwoDraws(r: RandomState) returns (between: RandomState)
    requires ValidRandomState(r)
    ensures ValidRandomState(between) && ValidRandomState(RollTwoDice(r).1)
    ensures StopsAt(r, 6, between) && StopsAt(between, 6, RollTwoDice(r).1)
    ensures var roll := RollTwoDice(r).0;
            && roll.first == 1 + Words.Value(between.state) % 6
            && roll.second == 1 + Words.Value(RollTwoDice(r).1.state) % 6
            && roll.total == roll.first + roll.second
  {
    hide NextInt, StopsAt, Words.Value;
    between := NextInt(r, 1, 7).1;
    NextIntStops(r, 1, 7);
    NextIntStops(between, 1, 7);
  }

  // Hands of more than seven cards lose half, rounded down.
  function DiscardRequirements(s: GameState): map<PlayerId, int> {
    map p | p in s.playerOrder && p in s.players && s.players[p].resources.Total() > 7 ::
      s.players[p].resources.Total() / 2
  }

  ghost predicate ProductionInputs(s: GameState) {
    && s.bank.resources.Complete()
    && (forall p :: p in s.playerOrder ==> p in s.players && s.players[p].resources.Complete())
    && (forall tile :: tile in s.board.tileContents ==>
          && tile in s.board.topology.tiles
          && (if s.board.tileContents[tile].terrain == Desert then s.board.tileContents[tile].numberToken.None?
              else s.board.tileContents[tile].numberToken.Some? && ValidToken(s.board.tileContents[tile].numberToken.value)))
  }

  function AfterSeven(s: GameState, roll: DiceRoll, random: RandomState): GameState {
    var required := DiscardRequirements(s);
    var turn := s.turn.(setup := None, lastRoll := Some(roll));
    var rolled := s.(stateVersion := s.stateVersion + 1, random := random);
    if required != map[] then
      rolled.(turn := turn.(phase := DiscardRequired),
              pending := Some(DiscardResources(s.turn.current, required, [])))
    else
      rolled.(turn := turn.(phase := RobberMoveRequired), pending := Some(MoveRobber(s.turn.current, DiceSeven)))
  }

  function AfterProduction(s: GameState, roll: DiceRoll, random: RandomState): GameState {
    s.(stateVersion := s.stateVersion + 1, random := random,
       players := ProducedPlayers(s, roll.total), bank := s.bank.(resources := ProducedBank(s, roll.total)),
       turn := s.turn.(phase := Action, setup := None, lastRoll := Some(roll)), pending := None)
  }

  ghost function ExecuteRoll(s: GameState): EngineResult
    requires ValidRandomState(s.random)
  {
    var (roll, random) := RollTwoDice(s.random);
    if roll.total == 7 then Asserted(ScoringAsserts, AfterSeven(s, roll, random))
    else if !ProductionInputs(s) then Threw
    else Asserted(ScoringAsserts, AfterProduction(s, roll, random))
  }

  function IndexOf(order: seq<PlayerId>, p: PlayerId): int
    ensures -1 <= IndexOf(order, p) < |order|
    ensures IndexOf(order, p) >= 0 ==> order[IndexOf(order, p)] == p
    ensures p in order ==> IndexOf(order, p) >= 0
  {
    if order == [] then -1
    else if order[0] == p then 0
    else
      var rest := IndexOf(order[1..], p);
      if rest < 0 then -1 else rest + 1
  }

  function AfterTurn(s: GameState, next: PlayerId): GameState {
    s.(stateVersion := s.stateVersion + 1,
       turn := TurnState(s.turn.turnNumber + 1, next, RollRequired, None, None, false), pending := None)
  }

  ghost function ExecuteEndTurn(s: GameState): EngineResult {
    var index := IndexOf(s.playerOrder, s.turn.current);
    if index < 0 then Threw
    else
      ThenAssert(ResolveVictory(AfterTurn(s, s.playerOrder[(index + 1) % |s.playerOrder|])), ScoringAsserts)
  }

  ghost function ExecuteNormalTurn(s: GameState, env: Envelope): EngineResult {
    if !ScoringAsserts(s) then Threw
    else
      var guard := OwnTurnGuard(s, env);
      if guard.Some? then Rejected(guard.value)
      else if s.turn.phase != (if env.command.RollDice? then RollRequired else Action) then Rejected(WrongPhase)
      else if env.command.RollDice? then ExecuteRoll(s)
      else ExecuteEndTurn(s)
  }

  // The robber.

  function RobberResumePhase(cause: RobberCause, s: GameState): Phase {
    if cause.DiceSeven? then Action else ResumePhase(s)
  }

  function AfterDiscard(s: GameState, actor: PlayerId, resources: Bag): GameState
    requires actor in s.players && s.pending.Some? && s.pending.value.DiscardResources?
  {
    var pending := s.pending.value;
    var done := (set p | p in pending.completed) + {actor};
    var remaining := exists p :: p in pending.required && p !in done;
    s.(stateVersion := s.stateVersion + 1,
       players := WithHand(s.players, actor, s.players[actor].resources.Minus(resources)),
       bank := s.bank.(resources := s.bank.resources.Plus(resources)),
       turn := s.turn.(phase := if remaining then DiscardRequired else RobberMoveRequired),
       pending := Some(if remaining then pending.(completed := FilterOrder(s.playerOrder, done))
                       else MoveRobber(pending.trigger, DiceSeven)))
  }

  ghost function ExecuteDiscard(s: GameState, actor: PlayerId, resources: Bag): EngineResult
    requires s.pending.Some? && s.pending.value.DiscardResources?
  {
    var pending := s.pending.value;
    if actor !in pending.required || actor in pending.completed then Rejected(InvalidDiscard)
    else if actor !in s.players then Threw
    else if pending.required[actor] <= 0 then Threw
    else
      var violation := ValidateDiscard(resources, s.players[actor].resources, pending.required[actor]);
      if violation.Some? then Rejected(violation.value)
      else Asserted(CardAsserts, AfterDiscard(s, actor, resources))
  }

  function AfterMove(s: GameState, tile: TileId, targets: seq<PlayerId>): GameState
    requires s.pending.Some? && s.pending.value.MoveRobber?
  {
    var pending := s.pending.value;
    s.(stateVersion := s.stateVersion + 1, board := s.board.(robberTileId := tile),
       turn := s.turn.(phase := if targets == [] then RobberResumePhase(pending.cause, s) else RobberTargetRequired),
       pending := if targets == [] then None
                  else Some(ChooseRobberTarget(pending.actor, tile, targets, pending.cause)))
  }

  ghost function ExecuteMove(s: GameState, actor: PlayerId, tile: TileId): EngineResult
    requires s.pending.Some? && s.pending.value.MoveRobber?
    requires forall p :: p in s.playerOrder ==> p in s.players
  {
    var pending := s.pending.value;
    if actor != pending.actor then Rejected(NotYourTurn)
    else if tile !in s.board.topology.tiles || tile == s.board.robberTileId then Rejected(InvalidRobberTile)
    else
      var targets := EligibleTargets(s.board, s.players, s.playerOrder, tile, actor);
      var moved := AfterMove(s, tile, targets);
      ThenAssert(if targets == [] && pending.cause.KnightCause? then ResolveVictory(moved) else Accepted(moved),
                 CardAsserts)
  }

  function AfterSteal(s: GameState, actor: PlayerId, target: PlayerId, resource: Resource, random: RandomState): GameState
    requires actor in s.players && target in s.players
    requires s.pending.Some? && s.pending.value.ChooseRobberTarget?
  {
    var actorHand := s.players[actor].resources.Set(resource, s.players[actor].resources.Get(resource) + 1);
    var targetHand := s.players[target].resources.Set(resource, s.players[target].resources.Get(resource) - 1);
    s.(stateVersion := s.stateVersion + 1,
       players := WithHand(WithHand(s.players, actor, actorHand), target, targetHand),
       turn := s.turn.(phase := RobberResumePhase(s.pending.value.cause, s)), pending := None, random := random)
  }

  ghost function ExecuteSteal(s: GameState, actor: PlayerId, target: PlayerId): EngineResult
    requires s.pending.Some? && s.pending.value.ChooseRobberTarget? && ValidRandomState(s.random)
  {
    var pending := s.pending.value;
    if actor != pending.actor then Rejected(NotYourTurn)
    else if target == actor || target !in pending.eligible then Rejected(InvalidRobberTarget)
    else if actor !in s.players || target !in s.players then Rejected(InvalidRobberTarget)
    else if !s.players[target].resources.Complete() || !(0 < s.players[target].resources.Total() <= Words.UINT32_RANGE) then Threw
    else
      var (resource, random) := DrawRandomResource(s.players[target].resources, s.random);
      var stolen := AfterSteal(s, actor, target, resource, random);
      ThenAssert(if pending.cause.KnightCause? then ResolveVictory(stolen) else Accepted(stolen), CardAsserts)
  }

  predicate PendingMatches(pending: Pending, command: Command) {
    || (command.Discard? && pending.DiscardResources?)
    || (command.Move? && pending.MoveRobber?)
    || (command.Steal? && pending.ChooseRobberTarget?)
  }

  function RobberPhase(command: Command): Phase {
    if command.Discard? then DiscardRequired else if command.Move? then RobberMoveRequired else RobberTargetRequired
  }

  ghost function ExecuteRobber(s: GameState, env: Envelope): EngineResult
    requires env.command.Discard? || env.command.Move? || env.command.Steal?
  {
    if !CardAsserts(s) then Threw
    else
      var guard := CommonGuard(s, env);
      if guard.Some? then Rejected(guard.value)
      else if s.pending.Some? && !PendingMatches(s.pending.value, env.command) then Rejected(PendingDecisionRequired)
      else if s.pending.None? || s.turn.phase != RobberPhase(env.command) then Rejected(WrongPhase)
      else if env.command.Discard? then ExecuteDiscard(s, env.actor, env.command.resources)
      else if env.command.Move? then ExecuteMove(s, env.actor, env.command.tileId)
      else ExecuteSteal(s, env.actor, env.command.target)
  }

  // Paid building.

  function Pay(s: GameState, actor: PlayerId, cost: Bag): GameState
    requires actor in s.players
  {
    s.(stateVersion := s.stateVersion + 1,
       players := WithHand(s.players, actor, s.players[actor].resources.Minus(cost)),
       bank := s.bank.(resources := s.bank.resources.Plus(cost)))
  }

  ghost function ExecuteBuild(s: GameState, env: Envelope): EngineResult
    requires env.actor in s.players && KnownEdges(s.board)
    requires env.command.BuildRoad? || env.command.BuildSettlement? || env.command.UpgradeCity?
  {
    var violation :=
      match env.command
      case BuildRoad(e) => ValidatePaidRoad(s, env.actor, e)
      case BuildSettlement(v) => ValidatePaidSettlement(s, env.actor, v)
      case UpgradeCity(v) => ValidateCityUpgrade(s, env.actor, v);
    if violation.Some? then Rejected(violation.value)
    else ThenAssert(ReconcileAndResolve(AfterBuild(s, env.actor, env.command)), ScoringAsserts)
  }

  function AfterBuild(s: GameState, actor: PlayerId, command: Command): GameState
    requires actor in s.players
    requires command.BuildRoad? || command.BuildSettlement? || command.UpgradeCity?
  {
    match command
    case BuildRoad(e) =>
      Pay(s, actor, ROAD_COST).(board := s.board.(roads := s.board.roads[e := actor]))
    case BuildSettlement(v) =>
      Pay(s, actor, SETTLEMENT_COST).(board := s.board.(buildings := s.board.buildings[v := Building(Settlement, actor)]))
    case UpgradeCity(v) =>
      Pay(s, actor, CITY_COST).(board := s.board.(buildings := s.board.buildings[v := Building(City, actor)]))
  }

  ghost function ExecutePaidBuilding(s: GameState, env: Envelope): EngineResult
    requires env.command.BuildRoad? || env.command.BuildSettlement? || env.command.UpgradeCity?
  {
    if !ScoringAsserts(s) || !KnownEdges(s.board) then Threw
    else
      var guard := OwnTurnGuard(s, env);
      if guard.Some? then Rejected(guard.value)
      else if s.turn.phase != Action then Rejected(WrongPhase)
      else ExecuteBuild(s, env)
  }

  // Development cards.

  function AfterBuy(s: GameState, actor: PlayerId): GameState
    requires actor in s.players && s.bank.deck != []
  {
    var top := s.bank.deck[0];
    var player := s.players[actor];
    s.(stateVersion := s.stateVersion + 1,
       players := s.players[actor := player.(
         resources := player.resources.Minus(CARD_COST),
         cards := player.cards + [OwnedCard(top.id, top.kind, s.turn.turnNumber, InHand)])],
       bank := BankState(s.bank.resources.Plus(CARD_COST), s.bank.deck[1..]))
  }

  ghost function ExecuteBuy(s: GameState, actor: PlayerId): EngineResult {
    if s.bank.deck == [] then Rejected(DevelopmentDeckEmpty)
    else if actor !in s.players then Threw
    else if !s.players[actor].resources.Covers(CARD_COST) then Rejected(InsufficientResources)
    else ThenAssert(ReconcileAndResolve(AfterBuy(s, actor)), CardAsserts)
  }

  // The state after playing a card, before any award is reconciled.
  function AfterPlay(s: GameState, actor: PlayerId, card: OwnedCard, roads: int): GameState
    requires actor in s.players
  {
    var player := s.players[actor].(cards := ReplaceStatus(s.players[actor].cards, card.id, Played));
    var counted := if card.kind == Knight then player.(playedKnights := player.playedKnights + 1) else player;
    var common := s.(stateVersion := s.stateVersion + 1, players := s.players[actor := counted],
                     turn := s.turn.(cardPlayed := true));
    match card.kind
    case Knight =>
      common.(turn := common.turn.(phase := RobberMoveRequired), pending := Some(MoveRobber(actor, KnightCause(card.id))))
    case RoadBuilding =>
      common.(turn := common.turn.(phase := FreeRoadPlacement), pending := Some(PlaceFreeRoads(actor, card.id, roads)))
    case Invention => common.(pending := Some(ChooseInvention(actor, card.id)))
    case Monopoly => common.(pending := Some(ChooseMonopoly(actor, card.id)))
    case VictoryPoint => common
  }

  ghost function ExecutePlay(s: GameState, actor: PlayerId, id: int): EngineResult
    requires actor in s.players && KnownEdges(s.board)
  {
    var violation := ValidatePlayable(s, actor, id);
    if violation.Some? then Rejected(violation.value)
    else
      var card := FindCard(s.players[actor].cards, id).value;
      var roads := if card.kind == RoadBuilding then RemainingFreeRoadCount(s.board, actor) else Some(0);
      if roads.None? then Rejected(CardNotPlayable)
      else if card.kind == Invention && s.bank.resources.Total() < 2 then Rejected(CardNotPlayable)
      else if card.kind == VictoryPoint then Rejected(CardNotPlayable)
      else
        var played := AfterPlay(s, actor, card, roads.value);
        if card.kind == Knight then ThenAssert(ReconcileAwards(played), CardAsserts)
        else Asserted(CardAsserts, played)
  }

  function AfterFreeRoad(s: GameState, actor: PlayerId, e: EdgeId): GameState
    requires s.pending.Some? && s.pending.value.PlaceFreeRoads?
  {
    var pending := s.pending.value;
    var completed := pending.remaining - 1 == 0;
    s.(stateVersion := s.stateVersion + 1, board := s.board.(roads := s.board.roads[e := actor]),
       turn := s.turn.(phase := if completed then ResumePhase(s) else FreeRoadPlacement),
       pending := if completed then None else Some(pending.(remaining := 1)))
  }

  ghost function ExecuteFreeRoad(s: GameState, actor: PlayerId, e: EdgeId): EngineResult
    requires actor in s.players && KnownEdges(s.board)
    requires s.pending.Some? && s.pending.value.PlaceFreeRoads?
  {
    var violation := ValidateFreeRoad(s.board, actor, e);
    if violation.Some? then Rejected(violation.value)
    else
      var awards := ReconcileAwards(AfterFreeRoad(s, actor, e));
      if !awards.Accepted? then awards
      else if actor !in awards.state.players then Threw
      else if ActualPoints(awards.state, actor) >= 10 then
        var stable := awards.state.(turn := awards.state.turn.(phase := ResumePhase(awards.state)), pending := None);
        ThenAssert(ResolveVictory(stable), CardAsserts)
      else Asserted(CardAsserts, awards.state)
  }

  function AfterFinish(s: GameState): GameState {
    s.(stateVersion := s.stateVersion + 1, turn := s.turn.(phase := ResumePhase(s)), pending := None)
  }

  ghost function ExecuteFinish(s: GameState, actor: PlayerId): EngineResult
    requires KnownEdges(s.board) && s.pending.Some? && s.pending.value.PlaceFreeRoads?
  {
    if s.pending.value.remaining != 1 || HasLegalFreeRoad(s.board, actor) then Rejected(CardNotPlayable)
    else Asserted(CardAsserts, AfterFinish(s))
  }

  function AfterInvention(s: GameState, actor: PlayerId, selection: Bag): GameState
    requires actor in s.players
  {
    s.(stateVersion := s.stateVersion + 1,
       players := WithHand(s.players, actor, s.players[actor].resources.Plus(selection)),
       bank := s.bank.(resources := s.bank.resources.Minus(selection)), pending := None)
  }

  ghost function ExecuteInvention(s: GameState, actor: PlayerId, selection: Bag): EngineResult {
    var violation := ValidateInvention(selection, s.bank.resources);
    if violation.Some? then Rejected(violation.value)
    else if actor !in s.players then Threw
    else Asserted(CardAsserts, AfterInvention(s, actor, selection))
  }

  function AfterMonopoly(s: GameState, actor: PlayerId, r: Resource): GameState
    requires actor in s.players && forall p :: p in s.playerOrder ==> p in s.players
  {
    s.(stateVersion := s.stateVersion + 1, players := MonopolyPlayers(s, actor, r), pending := None)
  }

  ghost function ExecuteMonopoly(s: GameState, actor: PlayerId, r: Resource): EngineResult
    requires forall p :: p in s.playerOrder ==> p in s.players
  {
    if actor !in s.players then Threw else Asserted(CardAsserts, AfterMonopoly(s, actor, r))
  }

  predicate IsEffectPhase(phase: Phase) {
    phase == RollRequired || phase == Action
  }

  predicate EffectMatches(pending: Pending, command: Command) {
    || ((command.BuildRoad? || command.FinishFreeRoads?) && pending.PlaceFreeRoads?)
    || (command.TakeInvention? && pending.ChooseInvention?)
    || (command.TakeMonopoly? && pending.ChooseMonopoly?)
  }

  ghost function ExecutePendingEffect(s: GameState, env: Envelope): EngineResult
    requires env.command.BuildRoad? || env.command.FinishFreeRoads? || env.command.TakeInvention? || env.command.TakeMonopoly?
    requires env.actor in s.players && KnownEdges(s.board)
    requires forall p :: p in s.playerOrder ==> p in s.players
  {
    var roads := env.command.BuildRoad? || env.command.FinishFreeRoads?;
    if s.pending.Some? && !EffectMatches(s.pending.value, env.command) then Rejected(PendingDecisionRequired)
    else if s.pending.None? || !(if roads then s.turn.phase == FreeRoadPlacement else IsEffectPhase(s.turn.phase)) then
      Rejected(WrongPhase)
    else if env.actor != s.pending.value.actor then Rejected(NotYourTurn)
    else
      match env.command
      case BuildRoad(e) => ExecuteFreeRoad(s, env.actor, e)
      case FinishFreeRoads => ExecuteFinish(s, env.actor)
      case TakeInvention(selection) => ExecuteInvention(s, env.actor, selection)
      case TakeMonopoly(r) => ExecuteMonopoly(s, env.actor, r)
  }

  ghost function ExecuteCards(s: GameState, env: Envelope): EngineResult
    requires env.command.BuildRoad? || env.command.FinishFreeRoads? || env.command.TakeInvention?
             || env.command.TakeMonopoly? || env.command.BuyCard? || env.command.PlayCard?
  {
    if !CardAsserts(s) || !KnownEdges(s.board) then Threw
    else
      var guard := CommonGuard(s, env);
      if guard.Some? then Rejected(guard.value)
      else if !env.command.BuyCard? && !env.command.PlayCard? then ExecutePendingEffect(s, env)
      else if s.pending.Some? then Rejected(PendingDecisionRequired)
      else if env.actor != s.turn.current then Rejected(NotYourTurn)
      else if !(if env.command.BuyCard? then s.turn.phase == Action else IsEffectPhase(s.turn.phase)) then Rejected(WrongPhase)
      else if env.command.BuyCard? then ExecuteBuy(s, env.actor)
      else ExecutePlay(s, env.actor, env.command.cardId)
  }

  // Trading.

  function WithTrade(s: GameState, responder: PlayerId, offer: TradeOffer, depth: int): GameState {
    s.(stateVersion := s.stateVersion + 1, pending := Some(RespondToTrade(responder, offer, depth)))
  }

  ghost function ExecuteProposal(s: GameState, actor: PlayerId, offer: TradeOffer): EngineResult {
    if !ValidInitialParties(s, actor, offer) then Rejected(TradePartyMismatch)
    else if !ValidBundles(offer) then Rejected(InvalidTradeOffer)
    else if Overlaps(offer.initiatorGives, offer.counterpartyGives) then Rejected(SameResourceTrade)
    else if offer.initiator !in s.players then Threw
    else if !CanProvide(s.players[offer.initiator].resources, offer.initiatorGives) then Rejected(TradeResourceUnavailable)
    else Asserted(TradingAsserts, WithTrade(s, offer.counterparty, offer, 0))
  }

  function AfterMaritime(s: GameState, actor: PlayerId, give: Resource, receive: Resource, ratio: int): GameState
    requires actor in s.players
  {
    var hand, bank := s.players[actor].resources, s.bank.resources;
    s.(stateVersion := s.stateVersion + 1,
       players := WithHand(s.players, actor, hand.Set(give, hand.Get(give) - ratio).Set(receive, hand.Get(receive) + 1)),
       bank := s.bank.(resources := bank.Set(give, bank.Get(give) + ratio).Set(receive, bank.Get(receive) - 1)))
  }

  ghost function ExecuteMaritime(s: GameState, actor: PlayerId, give: Resource, receive: Resource): EngineResult {
    if give == receive then Rejected(SameResourceTrade)
    else if actor !in s.players then Threw
    else
      var ratio := MaritimeRatio(s.board, actor, give);
      if s.players[actor].resources.Get(give) < ratio then Rejected(InsufficientResources)
      else if s.bank.resources.Get(receive) < 1 then Rejected(BankResourceUnavailable)
      else if !s.players[actor].resources.Complete() || !s.bank.resources.Complete() then Threw
      else Asserted(TradingAsserts, AfterMaritime(s, actor, give, receive, ratio))
  }

  function AfterReject(s: GameState): GameState {
    s.(stateVersion := s.stateVersion + 1, pending := None)
  }

  ghost function ExecuteCounter(s: GameState, actor: PlayerId, offer: TradeOffer): EngineResult
    requires s.pending.Some? && s.pending.value.RespondToTrade?
  {
    var pending := s.pending.value;
    if pending.counterDepth == 1 then Rejected(TradeNotAllowed)
    else if !ValidCounterLineage(pending, actor, offer) then Rejected(TradePartyMismatch)
    else if !ValidBundles(offer) then Rejected(InvalidTradeOffer)
    else if Overlaps(offer.initiatorGives, offer.counterpartyGives) then Rejected(SameResourceTrade)
    else if offer.counterparty !in s.players then Threw
    else if !CanProvide(s.players[offer.counterparty].resources, offer.counterpartyGives) then Rejected(TradeResourceUnavailable)
    else Asserted(TradingAsserts, WithTrade(s, offer.initiator, offer, 1))
  }

  function AfterTrade(s: GameState, offer: TradeOffer): GameState
    requires offer.initiator in s.players && offer.counterparty in s.players
  {
    var initiatorHand := s.players[offer.initiator].resources.Minus(offer.initiatorGives).Plus(offer.counterpartyGives);
    var counterpartyHand := s.players[offer.counterparty].resources.Minus(offer.counterpartyGives).Plus(offer.initiatorGives);
    s.(stateVersion := s.stateVersion + 1, pending := None,
       players := WithHand(WithHand(s.players, offer.initiator, initiatorHand), offer.counterparty, counterpartyHand))
  }

  ghost function ExecuteAccept(s: GameState): EngineResult
    requires s.pending.Some? && s.pending.value.RespondToTrade?
  {
    var offer := s.pending.value.offer;
    if offer.initiator !in s.players || offer.counterparty !in s.players then Threw
    else if !CanProvide(s.players[offer.initiator].resources, offer.initiatorGives)
            || !CanProvide(s.players[offer.counterparty].resources, offer.counterpartyGives) then Rejected(TradeResourceUnavailable)
    else if !s.players[offer.initiator].resources.Complete() || !s.players[offer.counterparty].resources.Complete()
            || !ValidBundles(offer) || Overlaps(offer.initiatorGives, offer.counterpartyGives) then Threw
    else Asserted(TradingAsserts, AfterTrade(s, offer))
  }

  function NamedTrade(command: Command): Option<TradeId> {
    match command
    case AcceptTrade(id) => Some(id)
    case RejectTrade(id) => Some(id)
    case CounterTrade(id, _) => Some(id)
    case _ => None
  }

  ghost function ExecuteResponse(s: GameState, env: Envelope): EngineResult
    requires env.command.AcceptTrade? || env.command.RejectTrade? || env.command.CounterTrade?
  {
    if s.pending.None? then Rejected(TradeNotPending)
    else if !s.pending.value.RespondToTrade? then Rejected(PendingDecisionRequired)
    else if NamedTrade(env.command) != Some(s.pending.value.offer.tradeId) then Rejected(TradeNotPending)
    else if env.actor != s.pending.value.responder then Rejected(TradePartyMismatch)
    else if env.command.RejectTrade? then Asserted(TradingAsserts, AfterReject(s))
    else if env.command.CounterTrade? then ExecuteCounter(s, env.actor, env.command.counter)
    else ExecuteAccept(s)
  }

  ghost function ExecuteTrading(s: GameState, env: Envelope): EngineResult
    requires env.command.AcceptTrade? || env.command.RejectTrade? || env.command.CounterTrade?
             || env.command.ProposeTrade? || env.command.MaritimeTrade?
  {
    if !TradingAsserts(s) then Threw
    else
      var guard := CommonGuard(s, env);
      if guard.Some? then Rejected(guard.value)
      else if env.command.AcceptTrade? || env.command.RejectTrade? || env.command.CounterTrade? then ExecuteResponse(s, env)
      else if s.pending.Some? then Rejected(PendingDecisionRequired)
      else if env.actor != s.turn.current then Rejected(NotYourTurn)
      else if s.turn.phase != Action then Rejected(WrongPhase)
      else if env.command.ProposeTrade? then ExecuteProposal(s, env.actor, env.command.offer)
      else ExecuteMaritime(s, env.actor, env.command.give, env.command.receive)
  }

  // The dispatcher.
  ghost function Execute(s: GameState, env: Envelope): EngineResult {
    if !TradingAsserts(s) then Threw
    else
      match env.command
      case PlaceInitialSettlement(_) => ExecuteSetup(s, env)
      case PlaceInitialRoad(_) => ExecuteSetup(s, env)
      case RollDice => ExecuteNormalTurn(s, env)
      case EndTurn => ExecuteNormalTurn(s, env)
      case Discard(_) => ExecuteRobber(s, env)
      case Move(_) => ExecuteRobber(s, env)
      case Steal(_) => ExecuteRobber(s, env)
      case BuildSettlement(_) => ExecutePaidBuilding(s, env)
      case UpgradeCity(_) => ExecutePaidBuilding(s, env)
      case BuildRoad(_) =>
        if s.turn.phase == FreeRoadPlacement || (s.pending.Some? && s.pending.value.PlaceFreeRoads?) then ExecuteCards(s, env)
        else ExecutePaidBuilding(s, env)
      case BuyCard => ExecuteCards(s, env)
      case PlayCard(_) => ExecuteCards(s, env)
      case TakeInvention(_) => ExecuteCards(s, env)
      case TakeMonopoly(_) => ExecuteCards(s, env)
      case FinishFreeRoads => ExecuteCards(s, env)
      case ProposeTrade(_) => ExecuteTrading(s, env)
      case AcceptTrade(_) => ExecuteTrading(s, env)
      case RejectTrade(_) => ExecuteTrading(s, env)
      case CounterTrade(_, _) => ExecuteTrading(s, env)
      case MaritimeTrade(_, _) => ExecuteTrading(s, env)
  }
}
