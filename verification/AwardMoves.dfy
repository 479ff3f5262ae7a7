// How awards move: a road can win Longest Road only for its builder, a Knight can win
// Largest Army only for its player, and commands that never reconcile leave both alone.

module AwardMoves {
  import opened Board
  import opened Bags
  import opened GameModel
  import opened LongestRoad
  import Words
  import opened SeededRandom
  import opened Production
  import opened Rules
  import opened Assertions
  import opened Engine
  import opened Invariants
  import opened InvariantsImplyAssertions
  import opened Geometry
  import opened Frames
  import opened SetupSafety
  import opened BuildSafety
  import opened Victory
  import opened CardSafety
  import opened Safety
  import opened Reachability

  lemma {:induction false} SameLeaders(
    order: seq<PlayerId>, values: map<PlayerId, nat>, values': map<PlayerId, nat>, minimum: nat, maximum: nat, maximum': nat)
    requires forall q :: q in order ==> q in values && q in values'
    requires forall q :: q in order ==>
               ((values[q] >= minimum && values[q] == maximum) <==> (values'[q] >= minimum && values'[q] == maximum'))
    ensures Leaders(order, values, minimum, maximum) == Leaders(order, values', minimum, maximum')
  {
    if order != [] {
      var first := order[0];
      assert first in order;
      SameLeaders(order[1..], values, values', minimum, maximum, maximum');
    }
  }

  lemma {:induction false} MaxIsReached(order: seq<PlayerId>, values: map<PlayerId, nat>)
    requires order != [] && forall q :: q in order ==> q in values
    ensures exists p :: p in order && values[p] == MaxValue(order, values)
  {
    var first, rest := order[0], order[1..];
    assert first in order;
    if rest != [] {
      MaxIsReached(rest, values);
      var p :| p in rest && values[p] == MaxValue(rest, values);
      assert p in order;
    } else {
      assert MaxValue(rest, values) == 0;
    }
  }

  lemma {:induction false} LeadersDistinct(order: seq<PlayerId>, values: map<PlayerId, nat>, minimum: nat, maximum: nat)
    requires Distinct(order) && forall q :: q in order ==> q in values
    ensures Distinct(Leaders(order, values, minimum, maximum))
  {
    if order != [] {
      var first := order[0];
      assert first in order;
      LeadersDistinct(order[1..], values, minimum, maximum);
      LeadersAre(order[1..], values, minimum, maximum);
      var rest := Leaders(order[1..], values, minimum, maximum);
      assert first !in rest;
    }
  }

  ghost predicate Leads(order: seq<PlayerId>, values: map<PlayerId, nat>, minimum: nat, p: PlayerId)
    requires forall q :: q in order ==> q in values
  {
    p in order && values[p] >= minimum && forall q :: q in order ==> values[q] <= values[p]
  }

  ghost predicate LeadsAlone(order: seq<PlayerId>, values: map<PlayerId, nat>, minimum: nat, p: PlayerId)
    requires forall q :: q in order ==> q in values
  {
    p in order && values[p] >= minimum && forall q :: q in order && q != p ==> values[q] < values[p]
  }

  // An award goes to a holder who still leads, and otherwise to whoever leads alone.
  lemma HolderExactly(order: seq<PlayerId>, values: map<PlayerId, nat>, holder: Option<PlayerId>, minimum: nat, p: PlayerId)
    requires Distinct(order) && forall q :: q in order ==> q in values
    requires values.Keys == set q | q in order
    ensures DeriveHolder(order, values, holder, minimum) == Some(p) <==>
              Leads(order, values, minimum, p) && (holder == Some(p) || LeadsAlone(order, values, minimum, p))
  {
    hide Distinct;
    var maximum := MaxValue(order, values);
    var leaders := Leaders(order, values, minimum, maximum);
    HolderLeads(order, values, holder, minimum);
    forall q | q in order ensures values[q] <= maximum {
      MaxValueBounds(order, values, q);
    }
    if order != [] {
      MaxIsReached(order, values);
    }
    LeadersAre(order, values, minimum, maximum);
    LeadersDistinct(order, values, minimum, maximum);
    hide Leaders, MaxValue;
    if LeadsAlone(order, values, minimum, p) {
      assert p in leaders && forall q :: q in leaders ==> q == p;
      OnlyOne(leaders, p);
    }
    if |leaders| == 1 && leaders[0] == p {
      assert p in leaders;
      forall q | q in order && q != p ensures values[q] < values[p] {
        assert q !in leaders;
      }
    }
  }

  // In every reachable state the holder of an award has the minimum and nobody has more; and
  // whoever has the minimum and more than everybody else holds it.
  lemma HoldersAre(s: GameState, p: PlayerId)
    requires Reachable(s) && p in s.playerOrder
    ensures forall q :: q in s.playerOrder ==> q in s.players
    ensures s.awards.longestRoad == Some(p) ==>
              && LongestRoadLength(s.board, p) >= 5
              && forall q :: q in s.playerOrder ==> LongestRoadLength(s.board, q) <= LongestRoadLength(s.board, p)
    ensures && LongestRoadLength(s.board, p) >= 5
            && (forall q :: q in s.playerOrder && q != p ==> LongestRoadLength(s.board, q) < LongestRoadLength(s.board, p)) ==>
              s.awards.longestRoad == Some(p)
    ensures s.awards.largestArmy == Some(p) ==>
              && s.players[p].playedKnights >= 3
              && forall q :: q in s.playerOrder ==> s.players[q].playedKnights <= s.players[p].playedKnights
    ensures && s.players[p].playedKnights >= 3
            && (forall q :: q in s.playerOrder && q != p ==> s.players[q].playedKnights < s.players[p].playedKnights) ==>
              s.awards.largestArmy == Some(p)
  {
    hide Reachable, Inv, DeriveHolder, LongestRoadLength, Distinct, CoreInv;
    ReachableInv(s);
    AwardsAreDerived(s);
    HolderExactly(s.playerOrder, RoadLengths(s), s.awards.longestRoad, LONGEST_ROAD_MINIMUM, p);
    HolderExactly(s.playerOrder, KnightCounts(s), s.awards.largestArmy, LARGEST_ARMY_MINIMUM, p);
  }

  lemma AwardsAreDerived(s: GameState)
    requires Inv(s)
    ensures s.awards == DerivedAwards(s) && Distinct(s.playerOrder) && forall q :: q in s.playerOrder ==> q in s.players
  {
    hide CoreInv, DerivedAwards, AwardInv;
    InvAsserts(s);
    OpenAwards(s);
    FourFromInv(s);
  }

  // From a fixpoint, raising one player's value either changes nothing or crowns that player.
  lemma OnlyTheRaisedGain(order: seq<PlayerId>, values: map<PlayerId, nat>, values': map<PlayerId, nat>,
                          holder: Option<PlayerId>, minimum: nat, p: PlayerId)
    requires Distinct(order) && p in order
    requires values.Keys == values'.Keys == set q | q in order
    requires forall q :: q in order ==> q in values && q in values'
    requires forall q :: q in order && q != p ==> values'[q] == values[q]
    requires values'[p] >= values[p]
    requires DeriveHolder(order, values, holder, minimum) == holder
    ensures var next := DeriveHolder(order, values', holder, minimum);
            next == holder || next == Some(p)
  {
    hide Distinct;
    var maximum, maximum' := MaxValue(order, values), MaxValue(order, values');
    MaximaGrow(order, values, values', p);
    HolderLeads(order, values, holder, minimum);
    var leaders' := Leaders(order, values', minimum, maximum');
    LeadersAre(order, values', minimum, maximum');
    LeadersDistinct(order, values', minimum, maximum');
    hide Leaders, MaxValue;
    if |leaders'| == 1 {
      var leader := leaders'[0];
      assert leader in leaders';
      if leader != p {
        SoleRival(order, values, values', minimum, p, maximum, maximum', leader);
        if holder.Some? {
          IsLeader(order, values, minimum, maximum, holder.value);
        }
      }
    } else if maximum' > maximum && maximum' >= minimum {
      forall q | q in leaders' ensures q == p {
        assert q in order && values'[q] == maximum';
      }
      assert p in leaders';
      OnlyOne(leaders', p);
    }
  }

  // Raising p's value cannot lower the maximum, and raises it only to p's value.
  lemma MaximaGrow(order: seq<PlayerId>, values: map<PlayerId, nat>, values': map<PlayerId, nat>, p: PlayerId)
    requires p in order && forall q :: q in order ==> q in values && q in values'
    requires forall q :: q in order && q != p ==> values'[q] == values[q]
    requires values'[p] >= values[p]
    ensures forall q :: q in order ==> values[q] <= MaxValue(order, values) && values'[q] <= MaxValue(order, values')
    ensures exists q :: q in order && values[q] == MaxValue(order, values)
    ensures MaxValue(order, values') >= MaxValue(order, values)
    ensures MaxValue(order, values') > MaxValue(order, values) ==> values'[p] == MaxValue(order, values')
  {
    forall q | q in order ensures values[q] <= MaxValue(order, values) && values'[q] <= MaxValue(order, values') {
      MaxValueBounds(order, values, q);
      MaxValueBounds(order, values', q);
    }
    MaxIsReached(order, values);
    MaxIsReached(order, values');
    hide MaxValue;
    var before :| before in order && values[before] == MaxValue(order, values);
    var after :| after in order && values'[after] == MaxValue(order, values');
    assert values'[before] >= values[before];
  }

  lemma IsLeader(order: seq<PlayerId>, values: map<PlayerId, nat>, minimum: nat, maximum: nat, p: PlayerId)
    requires forall q :: q in order ==> q in values
    ensures p in Leaders(order, values, minimum, maximum) <==> p in order && values[p] >= minimum && values[p] == maximum
  {
    LeadersAre(order, values, minimum, maximum);
  }

  lemma TwoDiffer(s: seq<PlayerId>)
    requires Distinct(s) && |s| > 1
    ensures s[0] != s[1]
  {
  }

  lemma OnlyOne(s: seq<PlayerId>, p: PlayerId)
    requires Distinct(s) && p in s && forall q :: q in s ==> q == p
    ensures |s| == 1
  {
    forall i | 0 <= i < |s| ensures s[i] == p {
      assert s[i] in s;
    }
    if |s| > 1 {
      TwoDiffer(s);
    }
  }

  // A rival who leads alone afterwards led alone before.
  lemma SoleRival(order: seq<PlayerId>, values: map<PlayerId, nat>, values': map<PlayerId, nat>, minimum: nat,
                  p: PlayerId, maximum: nat, maximum': nat, leader: PlayerId)
    requires forall q :: q in order ==> q in values && q in values'
    requires forall q :: q in order ==> values[q] <= maximum && values'[q] <= maximum'
    requires exists q :: q in order && values[q] == maximum
    requires forall q :: q in order && q != p ==> values'[q] == values[q]
    requires p in order && values'[p] >= values[p] && leader != p
    requires Leaders(order, values', minimum, maximum') == [leader]
    ensures Leaders(order, values, minimum, maximum) == [leader]
  {
    LeadersAre(order, values', minimum, maximum');
    hide Leaders;
    var leaders' := Leaders(order, values', minimum, maximum');
    assert leader in leaders' && p !in leaders';
    assert maximum == maximum';
    SameLeaders(order, values, values', minimum, maximum, maximum');
  }

  // Roads.

  lemma ReconciledAwards(s: GameState)
    ensures hide *; ReconcileAndResolve(s).Accepted? ==>
              ReconcileAndResolve(s).state.awards == DerivedAwards(s) && ReconcileAndResolve(s).state.board == s.board
    ensures ReconcileAwards(s).Accepted? ==> ReconcileAwards(s).state.awards == DerivedAwards(s)
  {
    hide ScoringAsserts, ScoringInputAsserts, DerivedAwards, Points, RevealPoints;
  }

  // Reconciling after one more road for p.
  lemma RoadAwards(s: GameState, n: GameState, p: PlayerId, e: EdgeId)
    requires FourPlayers(s) && AwardInv(s) && ValidTopology(s.board.topology) && p in s.playerOrder && e !in s.board.roads
    requires n.board == Paved(s.board, p, e) && n.awards == s.awards && n.playerOrder == s.playerOrder
    requires n.players.Keys == s.players.Keys
    requires forall q :: q in s.players ==> n.players[q].playedKnights == s.players[q].playedKnights
    ensures DerivedAwards(n).largestArmy == s.awards.largestArmy
    ensures DerivedAwards(n).longestRoad == s.awards.longestRoad || DerivedAwards(n).longestRoad == Some(p)
  {
    hide ValidTopology, LongestRoadLength, DeriveHolder;
    OpenAwards(s);
    assert KnightCounts(n) == KnightCounts(s);
    forall q | q in s.playerOrder
      ensures RoadLengths(n)[q] >= RoadLengths(s)[q] && (q != p ==> RoadLengths(n)[q] == RoadLengths(s)[q])
    {
      RoadBuiltEffect(s.board, p, e, q);
    }
    OnlyTheRaisedGain(s.playerOrder, RoadLengths(s), RoadLengths(n), s.awards.longestRoad, LONGEST_ROAD_MINIMUM, p);
  }

  // Reconciling after one more Knight for p.
  lemma KnightAwards(s: GameState, n: GameState, p: PlayerId)
    requires FourPlayers(s) && AwardInv(s) && p in s.playerOrder
    requires n.board == s.board && n.awards == s.awards && n.playerOrder == s.playerOrder && n.players.Keys == s.players.Keys
    requires forall q :: q in s.players && q != p ==> n.players[q].playedKnights == s.players[q].playedKnights
    requires p in s.players && n.players[p].playedKnights >= s.players[p].playedKnights
    ensures DerivedAwards(n).longestRoad == s.awards.longestRoad
    ensures DerivedAwards(n).largestArmy == s.awards.largestArmy || DerivedAwards(n).largestArmy == Some(p)
  {
    hide LongestRoadLength, DeriveHolder;
    OpenAwards(s);
    assert RoadLengths(n) == RoadLengths(s);
    OnlyTheRaisedGain(s.playerOrder, KnightCounts(s), KnightCounts(n), s.awards.largestArmy, LARGEST_ARMY_MINIMUM, p);
  }

  // Commands, engine by engine.

  lemma SetupKeepsAwards(s: GameState, env: Envelope)
    requires |s.playerOrder| == 4 && ExecuteSetup(s, env).Accepted?
    ensures ExecuteSetup(s, env).state.awards == s.awards
  {
    hide SetupAsserts, GrantFrom, HasOccupiedNeighbour, NextSetupTurn;
  }

  lemma ResolveKeepsAwards(s: GameState)
    ensures hide *; ResolveVictory(s).Accepted? ==> ResolveVictory(s).state.awards == s.awards
  {
    hide ScoringAsserts, Points, RevealPoints;
  }

  lemma TurnsKeepAwards(s: GameState, env: Envelope)
    requires hide *; ExecuteNormalTurn(s, env).Accepted?
    ensures ExecuteNormalTurn(s, env).state.awards == s.awards
  {
    hide ScoringAsserts, ResolveVictory, NextInt, ProducedPlayers, ProducedBank, DiscardRequirements, ProductionInputs;
    forall next {
      ResolveKeepsAwards(AfterTurn(s, next));
    }
  }

  lemma RobberKeepsAwards(s: GameState, env: Envelope)
    requires hide *; Inv(s) && (env.command.Discard? || env.command.Move? || env.command.Steal?)
    requires ExecuteRobber(s, env).Accepted?
    ensures ExecuteRobber(s, env).state.awards == s.awards
  {
    hide Inv, CardAsserts, ScoringAsserts, TradingAsserts, ExecuteDiscard, ExecuteMove, ExecuteSteal, FourPlayers, KnownEdges,
      ValidRandomState;
    InvAsserts(s);
    PlayersAre(s);
    if s.pending.Some? && PendingMatches(s.pending.value, env.command) {
      PendingRobberKeepsAwards(s, env);
    }
  }

  lemma PendingRobberKeepsAwards(s: GameState, env: Envelope)
    requires s.pending.Some? && PendingMatches(s.pending.value, env.command)
    ensures env.command.Discard? && ExecuteDiscard(s, env.actor, env.command.resources).Accepted? ==>
              ExecuteDiscard(s, env.actor, env.command.resources).state.awards == s.awards
    ensures env.command.Move? && (forall p :: p in s.playerOrder ==> p in s.players)
            && ExecuteMove(s, env.actor, env.command.tileId).Accepted? ==>
              ExecuteMove(s, env.actor, env.command.tileId).state.awards == s.awards
    ensures env.command.Steal? && ValidRandomState(s.random) && ExecuteSteal(s, env.actor, env.command.target).Accepted? ==>
              ExecuteSteal(s, env.actor, env.command.target).state.awards == s.awards
  {
    hide CardAsserts, ResolveVictory, EligibleTargets, FilterOrder, NextInt, ResourceAt, WithHand;
    match env.command {
      case Discard(_) =>
      case Move(tile) =>
        if tile in s.board.topology.tiles && forall p :: p in s.playerOrder ==> p in s.players {
          ResolveKeepsAwards(AfterMove(s, tile, EligibleTargets(s.board, s.players, s.playerOrder, tile, env.actor)));
        }
      case Steal(target) =>
        if && env.actor in s.players && target in s.players && ValidRandomState(s.random)
           && s.players[target].resources.Complete() && 0 < s.players[target].resources.Total() <= Words.UINT32_RANGE
        {
          var (resource, random) := DrawRandomResource(s.players[target].resources, s.random);
          ResolveKeepsAwards(AfterSteal(s, env.actor, target, resource, random));
        }
    }
  }

  lemma TradesKeepAwards(s: GameState, env: Envelope)
    requires hide *; env.command.AcceptTrade? || env.command.RejectTrade? || env.command.CounterTrade?
             || env.command.ProposeTrade? || env.command.MaritimeTrade?
    requires ExecuteTrading(s, env).Accepted?
    ensures ExecuteTrading(s, env).state.awards == s.awards
  {
    hide TradingAsserts, ValidBundles, Overlaps, CanProvide, MaritimeRatio, ValidInitialParties, ValidCounterLineage, WithHand;
  }

  lemma UnchangedAwards(s: GameState, n: GameState)
    requires AwardInv(s) && n.awards == s.awards && n.playerOrder == s.playerOrder && n.players.Keys == s.players.Keys
    requires forall q :: q in s.playerOrder ==> LongestRoadLength(n.board, q) == LongestRoadLength(s.board, q)
    requires forall q :: q in s.players ==> n.players[q].playedKnights == s.players[q].playedKnights
    ensures DerivedAwards(n) == s.awards
  {
    hide LongestRoadLength, DeriveHolder;
    OpenAwards(s);
    assert KnightCounts(n) == KnightCounts(s);
    assert RoadLengths(n) == RoadLengths(s);
  }

  // A holder whose value stays keeps the award when others only fall.
  lemma FallingKeeps(order: seq<PlayerId>, values: map<PlayerId, nat>, values': map<PlayerId, nat>, holder: PlayerId, minimum: nat)
    requires values.Keys == values'.Keys == set q | q in order
    requires forall q :: q in order ==> q in values && q in values' && values'[q] <= values[q]
    requires holder in order && values'[holder] == values[holder] && DeriveHolder(order, values, Some(holder), minimum) == Some(holder)
    ensures DeriveHolder(order, values', Some(holder), minimum) == Some(holder)
  {
    HolderLeads(order, values, Some(holder), minimum);
    MaxIsReached(order, values');
    MaxValueBounds(order, values', holder);
  }

  // A settlement that takes the award from its holder has cut the holder's road; one that hands
  // out a free award has cut some opponent's.
  ghost predicate CutsARoad(b: BoardState, b': BoardState, builder: PlayerId, holder: Option<PlayerId>) {
    exists q :: q != builder && LongestRoadLength(b', q) < LongestRoadLength(b, q) && (holder.Some? ==> holder == Some(q))
  }

  lemma SettlementAwards(s: GameState, n: GameState, p: PlayerId, v: VertexId)
    requires FourPlayers(s) && AwardInv(s) && ValidTopology(s.board.topology) && v !in s.board.buildings
    requires n.board == s.board.(buildings := s.board.buildings[v := Building(Settlement, p)])
    requires n.awards == s.awards && n.playerOrder == s.playerOrder
    ensures DerivedAwards(n).longestRoad == s.awards.longestRoad || CutsARoad(s.board, n.board, p, s.awards.longestRoad)
  {
    hide ValidTopology, LongestRoadLength, DeriveHolder, Distinct;
    OpenAwards(s);
    forall q | q in s.playerOrder ensures RoadLengths(n)[q] <= RoadLengths(s)[q] && (q == p ==> RoadLengths(n)[q] == RoadLengths(s)[q]) {
      SettlementBuiltEffect(s.board, p, v, q);
    }
    if !CutsARoad(s.board, n.board, p, s.awards.longestRoad) {
      if s.awards.longestRoad.Some? {
        HolderLeads(s.playerOrder, RoadLengths(s), s.awards.longestRoad, LONGEST_ROAD_MINIMUM);
        FallingKeeps(s.playerOrder, RoadLengths(s), RoadLengths(n), s.awards.longestRoad.value, LONGEST_ROAD_MINIMUM);
      } else {
        assert RoadLengths(n) == RoadLengths(s);
      }
    }
  }

  lemma BuildMoves(s: GameState, env: Envelope)
    requires Inv(s) && s.turn.phase == Action && env.actor in s.players && KnownEdges(s.board)
    requires env.command.BuildRoad? || env.command.BuildSettlement? || env.command.UpgradeCity?
    requires ExecuteBuild(s, env).Accepted?
    ensures var n, awards := ExecuteBuild(s, env).state, ExecuteBuild(s, env).state.awards;
            && awards.largestArmy == s.awards.largestArmy
            && (env.command.BuildSettlement? ==>
                  awards.longestRoad == s.awards.longestRoad || CutsARoad(s.board, n.board, env.actor, s.awards.longestRoad))
            && (env.command.BuildRoad? ==> awards.longestRoad == s.awards.longestRoad || awards.longestRoad == Some(env.actor))
            && (env.command.UpgradeCity? ==> awards == s.awards)
  {
    hide Inv, CoreInv, BoardInv, ResourceInv, CardInv, PointInv, PhaseInv, CardAsserts, ScoringAsserts, TradingAsserts, AwardInv,
      BuildingsOf, RoadsOf, HasOccupiedNeighbour, ClassifyConnection, ReconcileAndResolve, FourPlayers, TurnInv, HasRoadAt,
      ValidRandomState, DerivedAwards, LongestRoadLength, CutsARoad;
    InPlay(s);
    PlayersAre(s);
    BoardTopology(s.board, s.players.Keys);
    hide ValidTopology;
    var n := AfterBuild(s, env.actor, env.command);
    ReconciledAwards(n);
    match env.command {
      case BuildRoad(e) => RoadAwards(s, n, env.actor, e);
      case BuildSettlement(v) =>
        SameArmy(s, n);
        SettlementAwards(s, n, env.actor, v);
      case UpgradeCity(v) =>
        forall q ensures LongestRoadLength(n.board, q) == LongestRoadLength(s.board, q) {
          CityUpgradeEffect(s.board, v, q);
        }
        UnchangedAwards(s, n);
    }
  }

  lemma SameArmy(s: GameState, n: GameState)
    requires AwardInv(s) && n.awards == s.awards && n.playerOrder == s.playerOrder && n.players.Keys == s.players.Keys
    requires forall q :: q in s.players ==> n.players[q].playedKnights == s.players[q].playedKnights
    ensures DerivedAwards(n).largestArmy == s.awards.largestArmy
  {
    hide LongestRoadLength, DeriveHolder;
    OpenAwards(s);
    assert KnightCounts(n) == KnightCounts(s);
  }

  lemma FreeRoadMoves(s: GameState, e: EdgeId)
    requires hide *; Inv(s) && s.turn.phase == FreeRoadPlacement && s.pending.Some? && s.pending.value.PlaceFreeRoads?
    requires KnownEdges(s.board) && s.turn.current in s.players
    requires ExecuteFreeRoad(s, s.turn.current, e).Accepted?
    ensures var awards := ExecuteFreeRoad(s, s.turn.current, e).state.awards;
            && awards.largestArmy == s.awards.largestArmy
            && (awards.longestRoad == s.awards.longestRoad || awards.longestRoad == Some(s.turn.current))
  {
    hide Inv, CoreInv, BoardInv, ResourceInv, CardInv, PointInv, PhaseInv, CardAsserts, ScoringAsserts, TradingAsserts, AwardInv,
      RoadsOf, ClassifyConnection, ReconcileAwards, FourPlayers, TurnInv, ValidRandomState, DerivedAwards, LongestRoadLength,
      ResolveVictory, Points;
    InPlay(s);
    BoardTopology(s.board, s.players.Keys);
    hide ValidTopology;
    var n := AfterFreeRoad(s, s.turn.current, e);
    ReconciledAwards(n);
    RoadAwards(s, n, s.turn.current, e);
    var after := ReconcileAwards(n).state;
    ResolveKeepsAwards(after.(turn := after.turn.(phase := ResumePhase(after)), pending := None));
  }

  lemma BuyMoves(s: GameState, actor: PlayerId)
    requires hide *; Inv(s) && s.turn.phase == Action && actor in s.players
    requires ExecuteBuy(s, actor).Accepted?
    ensures ExecuteBuy(s, actor).state.awards == s.awards
  {
    hide Inv, CoreInv, BoardInv, ResourceInv, CardInv, PointInv, PhaseInv, CardAsserts, ScoringAsserts, TradingAsserts, AwardInv,
      ReconcileAndResolve, FourPlayers, TurnInv, ValidRandomState, DerivedAwards, LongestRoadLength;
    InPlay(s);
    var n := AfterBuy(s, actor);
    ReconciledAwards(n);
    UnchangedAwards(s, n);
  }

  lemma PlayMoves(s: GameState, id: int)
    requires hide *; Inv(s) && IsEffectPhase(s.turn.phase) && s.turn.current in s.players && KnownEdges(s.board)
    requires ExecutePlay(s, s.turn.current, id).Accepted?
    ensures var awards := ExecutePlay(s, s.turn.current, id).state.awards;
            && awards.longestRoad == s.awards.longestRoad
            && (awards.largestArmy == s.awards.largestArmy || awards.largestArmy == Some(s.turn.current))
  {
    hide Inv, CoreInv, BoardInv, ResourceInv, CardInv, PointInv, PhaseInv, CardAsserts, ScoringAsserts, TradingAsserts, AwardInv,
      ReconcileAwards, FourPlayers, TurnInv, ValidRandomState, DerivedAwards, LongestRoadLength, FindCard, ReplaceStatus,
      HasLegalFreeRoad, RoadsOf, KnownEdges, HandsOf, HoldingsOf;
    InPlay(s);
    var actor := s.turn.current;
    var card := FindCard(s.players[actor].cards, id).value;
    if card.kind == Knight {
      var n := AfterPlay(s, actor, card, 0);
      PlayMaps(s, actor, card, 0);
      ReconciledAwards(n);
      KnightAwards(s, n, actor);
    }
  }

  lemma CardMoves(s: GameState, env: Envelope)
    requires hide *; Inv(s)
    requires env.command.BuildRoad? || env.command.FinishFreeRoads? || env.command.TakeInvention?
             || env.command.TakeMonopoly? || env.command.BuyCard? || env.command.PlayCard?
    requires ExecuteCards(s, env).Accepted?
    ensures AwardsMove(s, env, ExecuteCards(s, env).state)
  {
    hide Inv, CoreInv, FourPlayers, KnownEdges, CardAsserts, ScoringAsserts, TradingAsserts, ExecuteBuy, ExecuteFreeRoad,
      ExecutePlay, ValidRandomState, FreeRoadInv, MonopolyPlayers, HasLegalFreeRoad, WithHand;
    InvAsserts(s);
    PlayersAre(s);
    match env.command {
      case BuyCard => BuyMoves(s, env.actor);
      case PlayCard(id) => PlayMoves(s, id);
      case BuildRoad(e) =>
        FreeRoadActor(s);
        FreeRoadMoves(s, e);
      case _ =>
    }
  }

  // Longest Road can change only when a road is built, and then only for its builder, or when a
  // settlement cuts a road, the holder's if there is one; Largest Army only when a card is
  // played, and only for its player.
  ghost predicate AwardsMove(s: GameState, env: Envelope, n: GameState) {
    && (|| n.awards.longestRoad == s.awards.longestRoad
        || (env.command.BuildRoad? && n.awards.longestRoad == Some(env.actor))
        || (env.command.BuildSettlement? && CutsARoad(s.board, n.board, env.actor, s.awards.longestRoad)))
    && (n.awards.largestArmy == s.awards.largestArmy || (env.command.PlayCard? && n.awards.largestArmy == Some(env.actor)))
  }

  lemma AwardsMoveForTheActor(s: GameState, env: Envelope)
    requires Reachable(s) && Execute(s, env).Accepted?
    ensures AwardsMove(s, env, Execute(s, env).state)
    ensures AwardInv(s) && AwardInv(Execute(s, env).state)
  {
    hide Reachable, Inv, CoreInv, TradingAsserts, CardAsserts, ScoringAsserts, ExecuteSetup, ExecuteNormalTurn, ExecuteRobber,
      ExecuteBuild, ExecuteCards, ExecuteTrading, FourPlayers, KnownEdges, ValidRandomState, AwardInv;
    ReachableInv(s);
    StepKeepsAwardInv(s, env);
    InvAsserts(s);
    FourFromInv(s);
    match env.command
    case PlaceInitialSettlement(_) => SetupKeepsAwards(s, env);
    case PlaceInitialRoad(_) => SetupKeepsAwards(s, env);
    case RollDice => TurnsKeepAwards(s, env);
    case EndTurn => TurnsKeepAwards(s, env);
    case Discard(_) => RobberKeepsAwards(s, env);
    case Move(_) => RobberKeepsAwards(s, env);
    case Steal(_) => RobberKeepsAwards(s, env);
    case BuildSettlement(_) => BuildMoves(s, env);
    case UpgradeCity(_) => BuildMoves(s, env);
    case BuildRoad(_) =>
      if s.turn.phase == FreeRoadPlacement || (s.pending.Some? && s.pending.value.PlaceFreeRoads?) {
        CardMoves(s, env);
      } else {
        BuildMoves(s, env);
      }
    case BuyCard => CardMoves(s, env);
    case PlayCard(_) => CardMoves(s, env);
    case TakeInvention(_) => CardMoves(s, env);
    case TakeMonopoly(_) => CardMoves(s, env);
    case FinishFreeRoads => CardMoves(s, env);
    case _ => TradesKeepAwards(s, env);
  }

  lemma StepKeepsAwardInv(s: GameState, env: Envelope)
    requires hide *; Inv(s) && Execute(s, env).Accepted?
    ensures AwardInv(s) && AwardInv(Execute(s, env).state)
  {
    hide CoreInv, AwardInv, PointInv, Execute;
    StepIsSafe(s, env);
  }
}
