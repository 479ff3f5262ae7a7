// Domestic and maritime trading keep the invariant and never throw.

module TradeSafety {
  import opened Board
  import opened Bags
  import opened GameModel
  import opened LongestRoad
  import opened SeededRandom
  import opened Production
  import opened Rules
  import opened Assertions
  import opened Engine
  import opened Invariants
  import opened InvariantsImplyAssertions
  import opened Geometry
  import opened Frames
  import opened Transfers
  import opened Victory
  import opened RobberSafety

  lemma ActionShape(s: GameState)
    requires Inv(s) && s.turn.phase == Action
    ensures ActionInv(s.players, s.bank.resources, s.turn, s.pending, s.winner) && s.winner.None? && !KnightPending(s)
  {
    hide BoardInv, ResourceInv, CardInv, AwardInv, PointInv, SetupInv, TurnInv, PlayedReference, FourPlayers, TradeCoherent,
      PendingNamesKnown;
    OpenCore(s);
  }

  // A trade offer may wait only in the Action phase, and it must be coherent.
  lemma OfferWaits(s: GameState)
    requires hide *; Inv(s) && s.pending.Some? && s.pending.value.RespondToTrade?
    ensures s.turn.phase == Action && s.winner.None?
    ensures TradeCoherent(s.players, s.turn, s.pending, s.winner) && PendingNamesKnown(s.pending.value, s.players.Keys)
  {
    hide BoardInv, ResourceInv, CardInv, AwardInv, PointInv, SetupInv, TurnInv, PlayedReference, TradeCoherent, PendingNamesKnown;
    OpenCore(s);
  }

  // Changing hands or the pending offer within the Action phase.
  lemma ActionPhase(s: GameState, n: GameState)
    requires hide *; Inv(s) && s.turn.phase == Action
    requires n.playerOrder == s.playerOrder && n.turn == s.turn && n.winner == s.winner
    requires n.pending.Some? ==>
               && n.pending.value.RespondToTrade?
               && TradeCoherent(n.players, n.turn, n.pending, n.winner) && PendingNamesKnown(n.pending.value, n.players.Keys)
    ensures |n.playerOrder| == 4 && PhaseInv(n) && !InSetup(n)
  {
    hide Inv, CoreInv, BoardInv, ResourceInv, CardInv, AwardInv, PointInv, SetupInv, TurnInv, FreeRoadInv,
      DiscardInv, MoveInv, TargetInv, OverInv, EffectInv, SetupPhaseInv, TradeCoherent, PendingNamesKnown;
    PhaseOf(s);
  }

  lemma OfferIsSafe(s: GameState, responder: PlayerId, offer: TradeOffer, depth: int)
    requires hide *; Inv(s) && s.turn.phase == Action
    requires var pending := Some(RespondToTrade(responder, offer, depth));
             TradeCoherent(s.players, s.turn, pending, s.winner) && PendingNamesKnown(pending.value, s.players.Keys)
    ensures Safe(s, Asserted(TradingAsserts, WithTrade(s, responder, offer, depth)))
  {
    hide Inv, CoreInv, BoardInv, ResourceInv, CardInv, AwardInv, PointInv, PhaseInv, HandsOf, HoldingsOf, Distinct,
      CardAsserts, ScoringAsserts, TradingAsserts, ValidRandomState, TradeCoherent, PendingNamesKnown;
    var n := WithTrade(s, responder, offer, depth);
    InPlay(s);
    ActionShape(s);
    ActionPhase(s, n);
    RobberTileKnown(s);
    HandsOnly(s, n);
    AllAsserts(n);
  }

  lemma ProposalIsSafe(s: GameState, actor: PlayerId, offer: TradeOffer)
    requires Inv(s) && s.turn.phase == Action && s.pending.None? && s.winner.None?
    requires actor == s.turn.current && actor in s.players
    ensures Safe(s, ExecuteProposal(s, actor, offer))
  {
    hide Inv, CoreInv, TradingAsserts, NonBlank, ValidBundles, Overlaps, CanProvide;
    if && ValidInitialParties(s, actor, offer) && ValidBundles(offer) && !Overlaps(offer.initiatorGives, offer.counterpartyGives)
       && CanProvide(s.players[offer.initiator].resources, offer.initiatorGives)
    {
      OfferIsSafe(s, offer.counterparty, offer, 0);
    }
  }

  lemma CounterIsSafe(s: GameState, actor: PlayerId, offer: TradeOffer)
    requires hide *; Inv(s) && s.pending.Some? && s.pending.value.RespondToTrade? && actor == s.pending.value.responder
    ensures Safe(s, ExecuteCounter(s, actor, offer))
  {
    hide Inv, CoreInv, TradingAsserts, NonBlank, ValidBundles, Overlaps, CanProvide;
    OfferWaits(s);
    var pending := s.pending.value;
    if && pending.counterDepth != 1 && ValidCounterLineage(pending, actor, offer) && ValidBundles(offer)
       && !Overlaps(offer.initiatorGives, offer.counterpartyGives)
       && CanProvide(s.players[offer.counterparty].resources, offer.counterpartyGives)
    {
      OfferIsSafe(s, offer.initiator, offer, 1);
    }
  }

  lemma RejectionIsSafe(s: GameState)
    requires hide *; Inv(s) && s.pending.Some? && s.pending.value.RespondToTrade?
    ensures Safe(s, Asserted(TradingAsserts, AfterReject(s)))
  {
    hide Inv, CoreInv, BoardInv, ResourceInv, CardInv, AwardInv, PointInv, PhaseInv, HandsOf, HoldingsOf, Distinct,
      CardAsserts, ScoringAsserts, TradingAsserts, ValidRandomState, TradeCoherent, PendingNamesKnown;
    OfferWaits(s);
    InPlay(s);
    ActionShape(s);
    var n := AfterReject(s);
    ActionPhase(s, n);
    RobberTileKnown(s);
    HandsOnly(s, n);
    AllAsserts(n);
  }

  lemma OfferFacts(s: GameState)
    requires hide *; Inv(s) && s.pending.Some? && s.pending.value.RespondToTrade?
    ensures var offer := s.pending.value.offer;
            && offer.initiator in s.players && offer.counterparty in s.players && offer.initiator != offer.counterparty
            && ValidBundles(offer) && !Overlaps(offer.initiatorGives, offer.counterpartyGives)
  {
    hide Inv, ValidBundles, Overlaps, CanProvide, NonBlank, PendingNamesKnown;
    OfferWaits(s);
  }

  // The exchange conserves cards: each party gives its bundle and takes the other's.
  lemma ExchangeKeepsResources(s: GameState, offer: TradeOffer)
    requires ResourceInv(s.playerOrder, HandsOf(s.players), s.bank.resources) && FourPlayers(s)
    requires offer.initiator in s.players && offer.counterparty in s.players && offer.initiator != offer.counterparty
    requires CanProvide(s.players[offer.initiator].resources, offer.initiatorGives)
    requires CanProvide(s.players[offer.counterparty].resources, offer.counterpartyGives)
    ensures s.players[offer.initiator].resources.Complete() && s.players[offer.counterparty].resources.Complete()
    ensures ResourceInv(s.playerOrder, HandsOf(AfterTrade(s, offer).players), s.bank.resources)
    ensures HoldingsOf(AfterTrade(s, offer).players) == HoldingsOf(s.players)
  {
    hide ResourceInv, HandsOf, HoldingsOf, Distinct, WithHand;
    PlayersAre(s);
    HandFits(s.playerOrder, s.players, s.bank.resources, offer.initiator);
    HandFits(s.playerOrder, s.players, s.bank.resources, offer.counterparty);
    BetweenHands(s.playerOrder, s.players, s.bank.resources, offer.initiator, offer.counterparty,
                 s.players[offer.initiator].resources.Minus(offer.initiatorGives).Plus(offer.counterpartyGives),
                 s.players[offer.counterparty].resources.Minus(offer.counterpartyGives).Plus(offer.initiatorGives));
  }

  lemma AcceptanceIsSafe(s: GameState)
    requires hide *; Inv(s) && s.pending.Some? && s.pending.value.RespondToTrade?
    ensures Safe(s, ExecuteAccept(s))
  {
    hide Inv, CoreInv, BoardInv, ResourceInv, CardInv, AwardInv, PointInv, PhaseInv, HandsOf, HoldingsOf, FourPlayers, WithHand,
      CardAsserts, ScoringAsserts, TradingAsserts, ValidRandomState, TradeCoherent, PendingNamesKnown, CanProvide, ValidBundles, Overlaps;
    OfferWaits(s);
    OfferFacts(s);
    InPlay(s);
    ActionShape(s);
    var offer := s.pending.value.offer;
    if && CanProvide(s.players[offer.initiator].resources, offer.initiatorGives)
       && CanProvide(s.players[offer.counterparty].resources, offer.counterpartyGives)
    {
      var n := AfterTrade(s, offer);
      ExchangeKeepsResources(s, offer);
      ActionPhase(s, n);
      RobberTileKnown(s);
      HandsOnly(s, n);
      AllAsserts(n);
    }
  }

  lemma MaritimeBags(hand: Bag, bank: Bag, give: Resource, receive: Resource, ratio: int)
    requires hand.Complete() && bank.Complete()
    requires give != receive && 0 <= ratio <= hand.Get(give) && bank.Get(receive) >= 1
    ensures var hand' := hand.Set(give, hand.Get(give) - ratio).Set(receive, hand.Get(receive) + 1);
            var bank' := bank.Set(give, bank.Get(give) + ratio).Set(receive, bank.Get(receive) - 1);
            hand'.Complete() && bank'.Complete() && hand'.Plus(bank') == hand.Plus(bank)
  {
    match give
    case Lumber =>
    case Brick =>
    case Wool =>
    case Grain =>
    case Ore =>
  }

  lemma MaritimeKeepsResources(s: GameState, actor: PlayerId, give: Resource, receive: Resource, ratio: int)
    requires ResourceInv(s.playerOrder, HandsOf(s.players), s.bank.resources) && FourPlayers(s) && actor in s.players
    requires give != receive && 0 <= ratio <= s.players[actor].resources.Get(give) && s.bank.resources.Get(receive) >= 1
    ensures ResourceInv(s.playerOrder, HandsOf(AfterMaritime(s, actor, give, receive, ratio).players),
                        AfterMaritime(s, actor, give, receive, ratio).bank.resources)
    ensures HoldingsOf(AfterMaritime(s, actor, give, receive, ratio).players) == HoldingsOf(s.players)
  {
    hide ResourceInv, HandsOf, HoldingsOf, Distinct, WithHand, Bag.Get, Bag.Set, Bag.Plus, Bag.Complete;
    PlayersAre(s);
    BankFits(s);
    HandFits(s.playerOrder, s.players, s.bank.resources, actor);
    var hand, bank := s.players[actor].resources, s.bank.resources;
    MaritimeBags(hand, bank, give, receive, ratio);
    WithBank(s.playerOrder, s.players, bank, actor,
             hand.Set(give, hand.Get(give) - ratio).Set(receive, hand.Get(receive) + 1),
             bank.Set(give, bank.Get(give) + ratio).Set(receive, bank.Get(receive) - 1));
  }

  lemma MaritimeIsSafe(s: GameState, actor: PlayerId, give: Resource, receive: Resource)
    requires Inv(s) && s.turn.phase == Action && s.pending.None? && actor in s.players
    ensures Safe(s, ExecuteMaritime(s, actor, give, receive))
  {
    hide Inv, CoreInv, BoardInv, ResourceInv, CardInv, AwardInv, PointInv, PhaseInv, HandsOf, HoldingsOf, FourPlayers, WithHand,
      CardAsserts, ScoringAsserts, TradingAsserts, ValidRandomState, TradeCoherent, PendingNamesKnown, ControlsPort;
    InPlay(s);
    ActionShape(s);
    var ratio := MaritimeRatio(s.board, actor, give);
    if give != receive && s.players[actor].resources.Get(give) >= ratio && s.bank.resources.Get(receive) >= 1 {
      var n := AfterMaritime(s, actor, give, receive, ratio);
      PlayersAre(s);
      BankFits(s);
      HandFits(s.playerOrder, s.players, s.bank.resources, actor);
      MaritimeKeepsResources(s, actor, give, receive, ratio);
      ActionPhase(s, n);
      RobberTileKnown(s);
      HandsOnly(s, n);
      AllAsserts(n);
    }
  }

  lemma ResponseIsSafe(s: GameState, env: Envelope)
    requires hide *; Inv(s) && (env.command.AcceptTrade? || env.command.RejectTrade? || env.command.CounterTrade?)
    ensures Safe(s, ExecuteResponse(s, env))
  {
    hide Inv, CoreInv, TradingAsserts, ExecuteCounter, ExecuteAccept;
    if s.pending.Some? && s.pending.value.RespondToTrade? {
      match env.command
      case AcceptTrade(_) => AcceptanceIsSafe(s);
      case RejectTrade(_) => RejectionIsSafe(s);
      case CounterTrade(_, counter) =>
        if env.actor == s.pending.value.responder {
          CounterIsSafe(s, env.actor, counter);
        }
    }
  }

  lemma TradingIsSafe(s: GameState, env: Envelope)
    requires Inv(s)
    requires env.command.AcceptTrade? || env.command.RejectTrade? || env.command.CounterTrade?
             || env.command.ProposeTrade? || env.command.MaritimeTrade?
    ensures Safe(s, ExecuteTrading(s, env))
  {
    hide Inv, CoreInv, FourPlayers, KnownEdges, CardAsserts, ScoringAsserts, TradingAsserts, ExecuteResponse, ExecuteProposal,
      ExecuteMaritime, ValidRandomState;
    InvAsserts(s);
    match env.command {
      case ProposeTrade(offer) =>
        if s.turn.phase == Action && s.pending.None? && s.winner.None? && env.actor == s.turn.current && env.actor in s.players {
          ProposalIsSafe(s, env.actor, offer);
        }
      case MaritimeTrade(give, receive) =>
        if s.turn.phase == Action && s.pending.None? && s.winner.None? && env.actor == s.turn.current && env.actor in s.players {
          MaritimeIsSafe(s, env.actor, give, receive);
        }
      case _ => ResponseIsSafe(s, env);
    }
  }
}
