// Safety of whole runs: from a new game no command ever throws, every accepted command
// raises the state version by one, and every state on the way satisfies the invariant.

module Safety {
  import opened Board
  import opened Bags
  import opened GameModel
  import opened LongestRoad
  import opened SeededRandom
  import opened Production
  import opened Rules
  import opened Assertions
  import opened Engine
  import opened Invariants
  import opened InvariantsImplyAssertions
  import opened Geometry
  import opened Frames
  import opened SetupSafety
  import opened TurnSafety
  import opened RobberSafety
  import opened BuildSafety
  import opened CardSafety
  import opened TradeSafety

  // The step theorem: any command, against any state satisfying the invariant.
  lemma StepIsSafe(s: GameState, env: Envelope)
    requires Inv(s)
    ensures Safe(s, Execute(s, env))
  {
    hide Inv, CoreInv, TradingAsserts, CardAsserts, ScoringAsserts, ExecuteSetup, ExecuteNormalTurn, ExecuteRobber,
      ExecutePaidBuilding, ExecuteCards, ExecuteTrading, FourPlayers, KnownEdges, ValidRandomState;
    InvAsserts(s);
    match env.command
    case PlaceInitialSettlement(_) => SetupIsSafe(s, env);
    case PlaceInitialRoad(_) => SetupIsSafe(s, env);
    case RollDice => NormalTurnIsSafe(s, env);
    case EndTurn => NormalTurnIsSafe(s, env);
    case Discard(_) => RobberIsSafe(s, env);
    case Move(_) => RobberIsSafe(s, env);
    case Steal(_) => RobberIsSafe(s, env);
    case BuildSettlement(_) => PaidBuildingIsSafe(s, env);
    case UpgradeCity(_) => PaidBuildingIsSafe(s, env);
    case BuildRoad(_) =>
      PaidBuildingIsSafe(s, env);
      CardsAreSafe(s, env);
    case BuyCard => CardsAreSafe(s, env);
    case PlayCard(_) => CardsAreSafe(s, env);
    case TakeInvention(_) => CardsAreSafe(s, env);
    case TakeMonopoly(_) => CardsAreSafe(s, env);
    case FinishFreeRoads => CardsAreSafe(s, env);
    case _ => TradingIsSafe(s, env);
  }

  // A run applies commands one after the other; a rejected one changes nothing.

  ghost function Next(s: GameState, env: Envelope): GameState {
    var result := Execute(s, env);
    if result.Accepted? then result.state else s
  }

  ghost function Run(s: GameState, envs: seq<Envelope>): GameState {
    if envs == [] then s else Next(Run(s, envs[..|envs| - 1]), envs[|envs| - 1])
  }

  ghost function AcceptedCount(s: GameState, envs: seq<Envelope>): nat {
    if envs == [] then 0
    else
      AcceptedCount(s, envs[..|envs| - 1])
      + (if Execute(Run(s, envs[..|envs| - 1]), envs[|envs| - 1]).Accepted? then 1 else 0)
  }

  lemma {:induction false} RunKeepsInv(s: GameState, envs: seq<Envelope>)
    requires Inv(s)
    ensures Inv(Run(s, envs))
    ensures Run(s, envs).stateVersion == s.stateVersion + AcceptedCount(s, envs)
  {
    hide Inv, Execute;
    if envs != [] {
      var before := Run(s, envs[..|envs| - 1]);
      RunKeepsInv(s, envs[..|envs| - 1]);
      StepIsSafe(before, envs[|envs| - 1]);
    }
  }

  // A new game: an empty board of standard content, an order of four players, a shuffled deck.

  predicate EmptyBoard(b: BoardState) {
    b.buildings == map[] && b.roads == map[]
  }

  function StandardDeck(): seq<CardDefinition> {
    DeckBelow(STANDARD_DECK_SIZE)
  }

  function DeckBelow(n: nat): (deck: seq<CardDefinition>)
    ensures |deck| == n && forall i :: 0 <= i < n ==> deck[i] == CardDefinition(i, StandardKind(i))
  {
    seq(n, i => CardDefinition(i, StandardKind(i)))
  }

  const NEW_PLAYER := PlayerState(NOTHING, [], 0)

  function NewGame(board: BoardState, order: seq<PlayerId>, deck: seq<CardDefinition>, random: RandomState): GameState
    requires |order| == 4
  {
    GameState(0, board, map p | p in order :: NEW_PLAYER, order, BankState(STANDARD_SUPPLY, deck),
              TurnState(0, order[0], SetupSettlement, Some(SetupState(1, 0, None)), None, false),
              Awards(None, None), None, random, None)
  }

  ghost predicate ValidStart(board: BoardState, order: seq<PlayerId>, deck: seq<CardDefinition>, random: RandomState) {
    && ValidTopology(board.topology) && ValidContents(board) && EmptyBoard(board)
    && |order| == 4 && Distinct(order)
    && multiset(deck) == multiset(StandardDeck())
    && ValidRandomState(random)
  }

  lemma DeckIdsUnfold(deck: seq<CardDefinition>)
    ensures deck == [] ==> DeckIds(deck) == multiset{}
    ensures deck != [] ==> DeckIds(deck) == multiset{deck[0].id} + DeckIds(deck[1..])
  {
  }

  lemma {:induction false} DeckIdsAppend(deck: seq<CardDefinition>, rest: seq<CardDefinition>)
    ensures DeckIds(deck + rest) == DeckIds(deck) + DeckIds(rest)
  {
    hide DeckIds;
    DeckIdsUnfold(deck);
    if deck == [] {
      assert deck + rest == rest;
    } else {
      DeckIdsAppend(deck[1..], rest);
      DeckIdsUnfold(deck + rest);
      assert (deck + rest)[1..] == deck[1..] + rest;
    }
  }

  lemma {:induction false} DeckBelowIds(n: nat)
    ensures DeckIds(DeckBelow(n)) == IdsBelow(n)
  {
    hide IdsBelow;
    OneMoreId(if n > 0 then n - 1 else 0);
    if n > 0 {
      assert DeckBelow(n) == DeckBelow(n - 1) + [CardDefinition(n - 1, StandardKind(n - 1))];
      DeckBelowIds(n - 1);
      var last := [CardDefinition(n - 1, StandardKind(n - 1))];
      DeckIdsAppend(DeckBelow(n - 1), last);
      assert last[1..] == [] && DeckIds(last) == multiset{n - 1} + DeckIds(last[1..]);
    }
  }

  lemma RemoveAt<T>(s: seq<T>, j: nat)
    requires j < |s|
    ensures multiset(s) == multiset(s[..j] + s[j + 1..]) + multiset{s[j]}
  {
    assert s == s[..j] + [s[j]] + s[j + 1..];
  }

  lemma CancelItem<T>(a: multiset<T>, b: multiset<T>, x: T)
    requires a + multiset{x} == b + multiset{x}
    ensures a == b
  {
    assert a == (a + multiset{x}) - multiset{x};
    assert b == (b + multiset{x}) - multiset{x};
  }

  // The deck with one card taken out.
  lemma DeckIdsRemoveAt(deck: seq<CardDefinition>, j: nat)
    requires j < |deck|
    ensures DeckIds(deck) == DeckIds(deck[..j] + deck[j + 1..]) + multiset{deck[j].id}
  {
    hide DeckIds;
    var one := [deck[j]];
    DeckIdsAppend(deck[..j], deck[j + 1..]);
    DeckIdsAppend(deck[..j], one);
    DeckIdsAppend(deck[..j] + one, deck[j + 1..]);
    assert deck == deck[..j] + one + deck[j + 1..];
    DeckIdsUnfold(one);
    DeckIdsUnfold(one[1..]);
  }

  lemma {:induction false} SameCardsSameIds(deck: seq<CardDefinition>, other: seq<CardDefinition>)
    requires multiset(deck) == multiset(other)
    ensures DeckIds(deck) == DeckIds(other)
  {
    hide DeckIds;
    DeckIdsUnfold(deck);
    if deck == [] {
      assert |multiset(other)| == 0;
    } else {
      assert deck[0] in multiset(deck);
      var j :| 0 <= j < |other| && other[j] == deck[0];
      RemoveAt(deck, 0);
      RemoveAt(other, j);
      assert deck[..0] + deck[1..] == deck[1..];
      CancelItem(multiset(deck[1..]), multiset(other[..j] + other[j + 1..]), deck[0]);
      SameCardsSameIds(deck[1..], other[..j] + other[j + 1..]);
      DeckIdsRemoveAt(other, j);
    }
  }

  lemma ShuffledDeckIsValid(deck: seq<CardDefinition>)
    requires multiset(deck) == multiset(StandardDeck())
    ensures ValidDeck(deck)
  {
    hide StandardKind;
    forall i | 0 <= i < |deck| ensures 0 <= deck[i].id < STANDARD_DECK_SIZE && deck[i].kind == StandardKind(deck[i].id) {
      assert deck[i] in multiset(deck);
      assert deck[i] in StandardDeck();
    }
  }

  lemma ShuffledDeckHasAllIds(deck: seq<CardDefinition>)
    requires multiset(deck) == multiset(StandardDeck())
    ensures DeckIds(deck) == StandardIds()
  {
    hide StandardKind, IdsBelow, DeckIds, DeckBelow;
    SameCardsSameIds(deck, StandardDeck());
    DeckBelowIds(STANDARD_DECK_SIZE);
  }

  lemma {:induction false} NoCardsHeld(order: seq<PlayerId>, holdings: map<PlayerId, Holding>)
    requires forall p :: p in order ==> p in holdings && holdings[p] == Holding([], 0)
    ensures HeldIds(order, holdings) == multiset{}
  {
    if order != [] {
      var first := order[0];
      assert first in order;
      NoCardsHeld(order[1..], holdings);
    }
  }

  lemma {:induction false} EmptyHands(order: seq<PlayerId>, hands: map<PlayerId, Bag>)
    requires forall p :: p in order ==> p in hands && hands[p] == NOTHING
    ensures SumHands(order, hands) == NOTHING
  {
    if order != [] {
      var first := order[0];
      assert first in order;
      EmptyHands(order[1..], hands);
    }
  }

  lemma EmptyBoardInv(b: BoardState, players: set<PlayerId>)
    requires ValidTopology(b.topology) && ValidContents(b) && EmptyBoard(b)
    ensures BoardInv(b, players)
    ensures (forall p, kind :: BuildingsOf(b, p, kind) == {}) && (forall p :: RoadsOf(b, p) == {})
  {
    hide ValidTopology;
    forall p, kind ensures BuildingsOf(b, p, kind) == {} {
    }
    forall p ensures RoadsOf(b, p) == {} {
    }
    forall p | p in players
      ensures |RoadsOf(b, p)| <= ROAD_LIMIT && |BuildingsOf(b, p, Settlement)| <= SETTLEMENT_LIMIT
      ensures |BuildingsOf(b, p, City)| <= CITY_LIMIT
    {
      assert BuildingsOf(b, p, Settlement) == {} && BuildingsOf(b, p, City) == {} && RoadsOf(b, p) == {};
    }
  }

  lemma NewGameCards(board: BoardState, order: seq<PlayerId>, deck: seq<CardDefinition>, random: RandomState)
    requires |order| == 4 && multiset(deck) == multiset(StandardDeck())
    ensures var s := NewGame(board, order, deck, random);
            && CardInv(order, HoldingsOf(s.players), deck, 0)
            && ResourceInv(order, HandsOf(s.players), STANDARD_SUPPLY)
  {
    hide DeckIds, HeldIds, IdsBelow, SumHands, ValidDeck, StandardDeck;
    var s := NewGame(board, order, deck, random);
    ShuffledDeckIsValid(deck);
    ShuffledDeckHasAllIds(deck);
    NoCardsHeld(order, HoldingsOf(s.players));
    EmptyHands(order, HandsOf(s.players));
  }

  lemma NewGameAwards(s: GameState)
    requires FourPlayers(s) && ValidTopology(s.board.topology) && s.awards == Awards(None, None)
    requires forall p :: p in s.players ==> s.players[p] == NEW_PLAYER && RoadsOf(s.board, p) == {}
    ensures AwardInv(s)
  {
    hide ValidTopology, AwardInv, RoadsOf;
    forall p | p in s.playerOrder ensures |RoadsOf(s.board, p)| < LONGEST_ROAD_MINIMUM && s.players[p].playedKnights == 0 {
      assert p in s.players;
      assert RoadsOf(s.board, p) == {};
    }
    UnheldAwards(s);
  }

  lemma NewGameSetup(board: BoardState, order: seq<PlayerId>, deck: seq<CardDefinition>, random: RandomState)
    requires |order| == 4 && Distinct(order) && EmptyBoard(board)
    requires (forall p, kind :: BuildingsOf(board, p, kind) == {}) && (forall p :: RoadsOf(board, p) == {})
    ensures var s := NewGame(board, order, deck, random);
            && FourPlayers(s) && PhaseInv(s) && PointInv(s)
            && SetupInv(s.stateVersion, order, board, s.players, STANDARD_SUPPLY, s.turn) && TurnInv(s.stateVersion, order, s.turn)
  {
    hide BuildingsOf, RoadsOf;
    var s := NewGame(board, order, deck, random);
    assert |board.buildings| == 0;
    var first := order[0];
    assert first in order && first in s.players;
    forall k | 0 <= k < 4
      ensures |BuildingsOf(board, order[k], Settlement)| == 0 && |BuildingsOf(board, order[k], City)| == 0 && |RoadsOf(board, order[k])| == 0
    {
      assert BuildingsOf(board, order[k], Settlement) == {} && BuildingsOf(board, order[k], City) == {} && RoadsOf(board, order[k]) == {};
    }
    assert SetupPieces(order, board, s.turn.setup.value, 0);
  }

  lemma NewGameInv(board: BoardState, order: seq<PlayerId>, deck: seq<CardDefinition>, random: RandomState)
    requires ValidStart(board, order, deck, random)
    ensures Inv(NewGame(board, order, deck, random))
  {
    hide BoardInv, ResourceInv, CardInv, AwardInv, PointInv, PhaseInv, SetupInv, TurnInv, ValidTopology, ValidContents, EmptyBoard,
      HandsOf, HoldingsOf, StandardDeck, RoadsOf, BuildingsOf;
    var s := NewGame(board, order, deck, random);
    EmptyBoardInv(board, s.players.Keys);
    NewGameCards(board, order, deck, random);
    NewGameSetup(board, order, deck, random);
    forall p | p in s.players ensures s.players[p] == NEW_PLAYER && RoadsOf(s.board, p) == {} {
      assert RoadsOf(board, p) == {};
    }
    NewGameAwards(s);
  }

  // The main theorem. After any commands whatsoever from a new game, the state satisfies the
  // whole assertion stack, its version counts the accepted commands, and the next command,
  // whatever it is, does not throw.
  lemma EveryRunIsSafe(
    board: BoardState, order: seq<PlayerId>, deck: seq<CardDefinition>, random: RandomState, envs: seq<Envelope>, env: Envelope)
    requires ValidStart(board, order, deck, random)
    ensures var start := NewGame(board, order, deck, random);
            var s := Run(start, envs);
            && TradingAsserts(s)
            && s.stateVersion == AcceptedCount(start, envs)
            && !Execute(s, env).Threw?
            && (Execute(s, env).Accepted? ==>
                  TradingAsserts(Execute(s, env).state) && Execute(s, env).state.stateVersion == s.stateVersion + 1)
  {
    hide Inv, Execute, TradingAsserts, ValidTopology, ValidContents, EmptyBoard, StandardDeck;
    var start := NewGame(board, order, deck, random);
    NewGameInv(board, order, deck, random);
    RunKeepsInv(start, envs);
    InvAsserts(Run(start, envs));
    StepIsSafe(Run(start, envs), env);
    if Execute(Run(start, envs), env).Accepted? {
      InvAsserts(Execute(Run(start, envs), env).state);
    }
  }
}
