// Discarding, moving the robber and stealing keep the invariant and never throw.

module Transfers {
  import opened Board
  import opened Bags
  import opened GameModel
  import opened Production
  import opened Invariants

  // Cards pass between one hand and the bank.
  lemma WithBank(order: seq<PlayerId>, players: map<PlayerId, PlayerState>, bank: Bag, p: PlayerId, hand: Bag, bank': Bag)
    requires ResourceInv(order, HandsOf(players), bank) && Distinct(order) && p in order && p in players
    requires hand.Complete() && bank'.Complete()
    requires hand.Plus(bank') == players[p].resources.Plus(bank)
    ensures ResourceInv(order, HandsOf(WithHand(players, p, hand)), bank')
    ensures HoldingsOf(WithHand(players, p, hand)) == HoldingsOf(players)
  {
    hide SumHands, Distinct;
    var hands := HandsOf(players);
    assert hands[p] == players[p].resources;
    HandUpdate(players, p, hand);
    SumHandsUpdate(order, hands, p, hand);
  }

  // Cards pass between two hands.
  lemma BetweenHands(
    order: seq<PlayerId>, players: map<PlayerId, PlayerState>, bank: Bag, p: PlayerId, q: PlayerId, hand: Bag, hand': Bag)
    requires ResourceInv(order, HandsOf(players), bank) && Distinct(order)
    requires p in order && p in players && q in order && q in players && p != q
    requires hand.Complete() && hand'.Complete()
    requires hand.Plus(hand') == players[p].resources.Plus(players[q].resources)
    ensures ResourceInv(order, HandsOf(WithHand(WithHand(players, p, hand), q, hand')), bank)
    ensures HoldingsOf(WithHand(WithHand(players, p, hand), q, hand')) == HoldingsOf(players)
  {
    hide SumHands, Distinct;
    var hands := HandsOf(players);
    assert hands[p] == players[p].resources && hands[q] == players[q].resources;
    HandUpdate(players, p, hand);
    SumHandsUpdate(order, hands, p, hand);
    var between := WithHand(players, p, hand);
    assert HandsOf(between)[q] == hands[q];
    HandUpdate(between, q, hand');
    SumHandsUpdate(order, HandsOf(between), q, hand');
  }

  // No hand holds more than the supply.
  lemma HandFits(order: seq<PlayerId>, players: map<PlayerId, PlayerState>, bank: Bag, p: PlayerId)
    requires ResourceInv(order, HandsOf(players), bank) && p in order && p in players
    ensures players[p].resources.Complete() && STANDARD_SUPPLY.Minus(bank).Covers(players[p].resources)
    ensures players[p].resources.Total() + bank.Total() <= 95
  {
    assert HandsOf(players)[p] == players[p].resources;
    SumHandsBound(order, HandsOf(players), p);
  }
}

module RobberSafety {
  import opened Board
  import opened Bags
  import opened GameModel
  import opened LongestRoad
  import Words
  import opened SeededRandom
  import opened Production
  import opened Rules
  import opened Assertions
  import opened Engine
  import opened Invariants
  import opened InvariantsImplyAssertions
  import opened Geometry
  import opened Frames
  import opened Transfers
  import opened Victory

  // Discarding.

  lemma DiscardShape(s: GameState)
    requires hide *; Inv(s) && s.turn.phase == DiscardRequired
    ensures DiscardInv(s.playerOrder, s.players, s.turn, s.pending) && s.winner.None? && !KnightPending(s)
    ensures s.pending.Some? && s.pending.value.DiscardResources?
            && forall p :: p in s.pending.value.required ==> s.pending.value.required[p] > 0 && p in s.players
  {
    hide BoardInv, ResourceInv, CardInv, AwardInv, PointInv, SetupInv, TurnInv, FilterOrder;
    OpenCore(s);
  }

  lemma DiscardPhase(s: GameState, actor: PlayerId, resources: Bag)
    requires FourPlayers(s) && PhaseInv(s) && s.turn.phase == DiscardRequired && s.winner.None?
    requires DiscardInv(s.playerOrder, s.players, s.turn, s.pending)
    requires actor in s.players && actor in s.pending.value.required && actor !in s.pending.value.completed
    ensures PhaseInv(AfterDiscard(s, actor, resources)) && !InSetup(AfterDiscard(s, actor, resources))
  {
    hide FilterOrder, ActionInv, TargetInv, FreeRoadInv, OverInv, EffectInv, SetupPhaseInv;
    var pending := s.pending.value;
    var done := (set p | p in pending.completed) + {actor};
    var n := AfterDiscard(s, actor, resources);
    if exists p :: p in pending.required && p !in done {
      FilterOrderFacts(s.playerOrder, done);
      assert (set p | p in n.pending.value.completed) == done;
      assert DiscardInv(n.playerOrder, n.players, n.turn, n.pending);
    } else {
      assert MoveInv(n.players, n.turn, n.pending);
    }
  }

  lemma DiscardResourcesKept(s: GameState, actor: PlayerId, resources: Bag)
    requires FourPlayers(s) && ResourceInv(s.playerOrder, HandsOf(s.players), s.bank.resources) && actor in s.players
    requires resources.Complete() && s.players[actor].resources.Covers(resources)
    ensures var players := WithHand(s.players, actor, s.players[actor].resources.Minus(resources));
            && ResourceInv(s.playerOrder, HandsOf(players), s.bank.resources.Plus(resources))
            && HoldingsOf(players) == HoldingsOf(s.players)
  {
    hide ResourceInv, HandsOf, HoldingsOf, WithHand, Distinct;
    PlayersAre(s);
    HandFits(s.playerOrder, s.players, s.bank.resources, actor);
    BankFits(s);
    WithBank(s.playerOrder, s.players, s.bank.resources, actor,
             s.players[actor].resources.Minus(resources), s.bank.resources.Plus(resources));
  }

  lemma DiscardIsSafe(s: GameState, actor: PlayerId, resources: Bag)
    requires hide *; Inv(s) && s.turn.phase == DiscardRequired && s.pending.Some? && s.pending.value.DiscardResources?
    ensures Safe(s, ExecuteDiscard(s, actor, resources))
  {
    hide Inv, CoreInv, BoardInv, ResourceInv, CardInv, AwardInv, PointInv, PhaseInv, CardAsserts, ScoringAsserts, TradingAsserts,
      Distinct, FilterOrder, HandsOf, HoldingsOf, TurnInv, ValidRandomState, FourPlayers, DiscardInv, WithHand, SamePieces;
    InPlay(s);
    DiscardShape(s);
    var pending := s.pending.value;
    if actor in pending.required && actor !in pending.completed && actor in s.players
       && ValidateDiscard(resources, s.players[actor].resources, pending.required[actor]).None?
    {
      var n := AfterDiscard(s, actor, resources);
      PhaseOf(s);
      DiscardPhase(s, actor, resources);
      DiscardResourcesKept(s, actor, resources);
      RobberTileKnown(s);
      HandsOnly(s, n);
      AllAsserts(n);
    }
  }

  lemma PhaseOf(s: GameState)
    requires hide *; Inv(s)
    ensures |s.playerOrder| == 4 && PhaseInv(s)
  {
    hide BoardInv, ResourceInv, CardInv, AwardInv, PointInv, PhaseInv, SetupInv, TurnInv, Distinct;
    OpenCore(s);
  }

  lemma BankFits(s: GameState)
    requires ResourceInv(s.playerOrder, HandsOf(s.players), s.bank.resources)
    ensures s.bank.resources.Complete()
  {
  }

  lemma RobberTileKnown(s: GameState)
    requires BoardInv(s.board, s.players.Keys)
    ensures s.board.robberTileId in s.board.topology.tiles && SamePieces(s.board, s.board)
  {
    hide ValidTopology, KnownOccupancy, WithinLimits, Spaced, AllAnchored;
  }

  // Moving the robber.

  lemma {:induction false} EligibleFrame(
    b: BoardState, b': BoardState, players: map<PlayerId, PlayerState>, order: seq<PlayerId>, tile: TileId, actor: PlayerId)
    requires SamePieces(b, b') && tile in b.topology.tiles
    requires forall p :: p in order ==> p in players
    ensures EligibleTargets(b, players, order, tile, actor) == EligibleTargets(b', players, order, tile, actor)
  {
    if order != [] {
      EligibleFrame(b, b', players, order[1..], tile, actor);
      assert TileTouches(b, tile, order[0]) == TileTouches(b', tile, order[0]);
    }
  }

  lemma MoveShape(s: GameState)
    requires hide *; Inv(s) && s.turn.phase == RobberMoveRequired
    ensures MoveInv(s.players, s.turn, s.pending) && s.winner.None?
    ensures s.pending.Some? && s.pending.value.MoveRobber? && s.pending.value.actor == s.turn.current
    ensures KnightPending(s) <==> s.pending.value.cause.KnightCause?
  {
    hide BoardInv, ResourceInv, CardInv, AwardInv, PointInv, SetupInv, TurnInv, FourPlayers, CauseInv;
    OpenCore(s);
  }

  lemma MovePhase(s: GameState, tile: TileId, targets: seq<PlayerId>)
    requires FourPlayers(s) && PhaseInv(s) && s.turn.phase == RobberMoveRequired && s.winner.None?
    requires MoveInv(s.players, s.turn, s.pending) && tile in s.board.topology.tiles
    requires targets == EligibleTargets(s.board, s.players, s.playerOrder, tile, s.turn.current)
    ensures PhaseInv(AfterMove(s, tile, targets)) && !InSetup(AfterMove(s, tile, targets))
  {
    hide EligibleTargets, DiscardInv, FreeRoadInv, OverInv, EffectInv, SetupPhaseInv, PlayedReference;
    var n := AfterMove(s, tile, targets);
    PlayersAre(s);
    EligibleFrame(s.board, n.board, s.players, s.playerOrder, tile, s.turn.current);
    if targets != [] {
      assert TargetInv(n.board, n.players, n.playerOrder, n.turn, n.pending);
    }
  }

  lemma MoveKeeps(s: GameState, tile: TileId, targets: seq<PlayerId>)
    requires hide *; Inv(s) && s.turn.phase == RobberMoveRequired
    requires s.pending.Some? && s.pending.value.MoveRobber? && s.pending.value.actor == s.turn.current
    requires tile in s.board.topology.tiles
    requires forall p :: p in s.playerOrder ==> p in s.players
    requires targets == EligibleTargets(s.board, s.players, s.playerOrder, tile, s.turn.current)
    ensures var n := AfterMove(s, tile, targets);
            && CoreInv(n) && AwardInv(n) && !InSetup(n) && n.turn.phase != GameOver
            && (targets != [] || s.pending.value.cause.DiceSeven? ==> Inv(n))
  {
    hide Inv, CoreInv, BoardInv, ResourceInv, CardInv, AwardInv, PointInv, PhaseInv, EligibleTargets,
      Distinct, HandsOf, HoldingsOf, TurnInv, ValidRandomState, MoveInv;
    InPlay(s);
    MoveShape(s);
    PhaseOf(s);
    MovePhase(s, tile, targets);
    HandsOnly(s, AfterMove(s, tile, targets));
  }

  lemma MoveIsSafe(s: GameState, actor: PlayerId, tile: TileId)
    requires hide *; Inv(s) && s.turn.phase == RobberMoveRequired && s.pending.Some? && s.pending.value.MoveRobber?
    ensures forall p :: p in s.playerOrder ==> p in s.players
    ensures Safe(s, ExecuteMove(s, actor, tile))
  {
    hide Inv, CoreInv, BoardInv, ResourceInv, CardInv, AwardInv, PointInv, PhaseInv, CardAsserts, ScoringAsserts, TradingAsserts,
      Distinct, EligibleTargets, HandsOf, HoldingsOf, TurnInv, ValidRandomState, MoveInv, ResolveVictory;
    InPlay(s);
    PlayersAre(s);
    MoveShape(s);
    if actor == s.pending.value.actor && tile in s.board.topology.tiles {
      var targets := EligibleTargets(s.board, s.players, s.playerOrder, tile, actor);
      var n := AfterMove(s, tile, targets);
      MoveKeeps(s, tile, targets);
      AllAsserts(n);
      if targets == [] && s.pending.value.cause.KnightCause? {
        ResolveFacts(n);
        AllAsserts(ResolveVictory(n).state);
      }
    }
  }

  // Stealing.

  lemma TargetShape(s: GameState)
    requires hide *; Inv(s) && s.turn.phase == RobberTargetRequired
    ensures TargetInv(s.board, s.players, s.playerOrder, s.turn, s.pending) && s.winner.None?
    ensures s.pending.Some? && s.pending.value.ChooseRobberTarget? && s.pending.value.actor == s.turn.current
    ensures KnightPending(s) <==> s.pending.value.cause.KnightCause?
    ensures s.pending.value.cause.DiceSeven? ==> RolledSeven(s.turn)
    ensures s.turn.lastRoll.Some? ==> ValidRoll(s.turn.lastRoll.value)
  {
    hide BoardInv, ResourceInv, CardInv, AwardInv, PointInv, SetupInv, TurnInv, FourPlayers, EligibleTargets;
    OpenCore(s);
  }

  lemma TargetFacts(s: GameState, target: PlayerId)
    requires hide *; Inv(s) && s.turn.phase == RobberTargetRequired && FourPlayers(s)
    requires ResourceInv(s.playerOrder, HandsOf(s.players), s.bank.resources)
    requires s.pending.Some? && s.pending.value.ChooseRobberTarget? && target in s.pending.value.eligible
    ensures target in s.players && target != s.turn.current && target in s.playerOrder
    ensures s.players[target].resources.Complete() && 0 < s.players[target].resources.Total() <= Words.UINT32_RANGE
  {
    hide Inv, CoreInv, BoardInv, ResourceInv, CardInv, AwardInv, PointInv, PhaseInv, EligibleTargets, TileTouches, SumHands;
    TargetShape(s);
    PlayersAre(s);
    EligibleTargetFacts(s.board, s.players, s.playerOrder, s.board.robberTileId, s.turn.current);
    HandFits(s.playerOrder, s.players, s.bank.resources, target);
    BankFits(s);
  }

  lemma StealPhase(s: GameState, target: PlayerId, resource: Resource, random: RandomState)
    requires FourPlayers(s) && PhaseInv(s) && s.turn.phase == RobberTargetRequired && s.winner.None?
    requires s.pending.Some? && s.pending.value.ChooseRobberTarget? && s.turn.current in s.players && target in s.players
    requires s.pending.value.cause.DiceSeven? ==> RolledSeven(s.turn)
    ensures var n := AfterSteal(s, s.turn.current, target, resource, random);
            PhaseInv(n) && !InSetup(n) && n.turn.phase != GameOver && n.pending.None?
  {
    hide EligibleTargets, DiscardInv, FreeRoadInv, OverInv, EffectInv, SetupPhaseInv, PlayedReference, TargetInv, MoveInv;
  }

  lemma StealKeeps(s: GameState, target: PlayerId, resource: Resource, random: RandomState)
    requires hide *; Inv(s) && s.turn.phase == RobberTargetRequired && ValidRandomState(random)
    requires s.pending.Some? && s.pending.value.ChooseRobberTarget? && target in s.pending.value.eligible
    requires s.turn.current in s.players && target in s.players
    requires s.players[target].resources.Get(resource) > 0
    ensures var n := AfterSteal(s, s.turn.current, target, resource, random);
            && CoreInv(n) && AwardInv(n) && !InSetup(n) && n.turn.phase != GameOver
            && (s.pending.value.cause.DiceSeven? ==> Inv(n))
  {
    hide Inv, CoreInv, BoardInv, ResourceInv, CardInv, AwardInv, PointInv, PhaseInv, EligibleTargets, TargetInv,
      Distinct, HandsOf, HoldingsOf, TurnInv, ValidRandomState, WithHand;
    var actor := s.turn.current;
    InPlay(s);
    TargetShape(s);
    TargetFacts(s, target);
    PhaseOf(s);
    StealPhase(s, target, resource, random);
    HandFits(s.playerOrder, s.players, s.bank.resources, actor);
    var actorHand := s.players[actor].resources.Set(resource, s.players[actor].resources.Get(resource) + 1);
    var targetHand := s.players[target].resources.Set(resource, s.players[target].resources.Get(resource) - 1);
    BetweenHands(s.playerOrder, s.players, s.bank.resources, actor, target, actorHand, targetHand);
    RobberTileKnown(s);
    HandsOnly(s, AfterSteal(s, actor, target, resource, random));
  }

  lemma StealIsSafe(s: GameState, actor: PlayerId, target: PlayerId)
    requires hide *; Inv(s) && s.turn.phase == RobberTargetRequired && s.pending.Some? && s.pending.value.ChooseRobberTarget?
    ensures ValidRandomState(s.random) && Safe(s, ExecuteSteal(s, actor, target))
  {
    hide Inv, CoreInv, BoardInv, ResourceInv, CardInv, AwardInv, PointInv, PhaseInv, CardAsserts, ScoringAsserts, TradingAsserts,
      Distinct, EligibleTargets, HandsOf, HoldingsOf, TurnInv, ValidRandomState, TargetInv, ResolveVictory, ResourceAt, NextInt;
    InPlay(s);
    TargetShape(s);
    if actor == s.pending.value.actor && target in s.pending.value.eligible {
      TargetFacts(s, target);
      var (resource, random) := DrawRandomResource(s.players[target].resources, s.random);
      var n := AfterSteal(s, actor, target, resource, random);
      StealKeeps(s, target, resource, random);
      AllAsserts(n);
      if s.pending.value.cause.KnightCause? {
        ResolveFacts(n);
        AllAsserts(ResolveVictory(n).state);
      }
    }
  }

  lemma RobberIsSafe(s: GameState, env: Envelope)
    requires Inv(s) && (env.command.Discard? || env.command.Move? || env.command.Steal?)
    ensures Safe(s, ExecuteRobber(s, env))
  {
    hide Inv, CoreInv, CardAsserts, ScoringAsserts, TradingAsserts, ExecuteDiscard, ExecuteMove, ExecuteSteal, FourPlayers,
      KnownEdges, ValidRandomState;
    InvAsserts(s);
    if s.pending.Some? && PendingMatches(s.pending.value, env.command) && s.turn.phase == RobberPhase(env.command) {
      match env.command
      case Discard(resources) => DiscardIsSafe(s, env.actor, resources);
      case Move(tile) => MoveIsSafe(s, env.actor, tile);
      case Steal(target) => StealIsSafe(s, env.actor, target);
    }
  }
}
