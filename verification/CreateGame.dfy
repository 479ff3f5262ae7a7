// Creating a game: every run of the engine starts here.

module GameCreation {
  import opened Board
  import opened Bags
  import opened GameModel
  import opened Words
  import opened SeededRandom
  import opened Shuffle
  import opened Rules
  import opened Assertions
  import opened Engine
  import opened Invariants
  import opened Frames
  import opened RedNumbers
  import opened Safety
  import opened Reachability
  import opened StandardBoard

  // The configured order, starting from the drawn first player.
  function Rotated(players: seq<PlayerId>, first: nat): seq<PlayerId>
    requires |players| == 4
  {
    [players[first % 4], players[(first + 1) % 4], players[(first + 2) % 4], players[(first + 3) % 4]]
  }

  lemma RotationIsDistinct(players: seq<PlayerId>, first: nat)
    requires |players| == 4 && Distinct(players) && first < 4
    ensures |Rotated(players, first)| == 4 && Distinct(Rotated(players, first)) && forall p :: p in Rotated(players, first) <==> p in players
  {
    var rotated := Rotated(players, first);
    assert players[0] != players[1] && players[0] != players[2] && players[0] != players[3];
    assert players[1] != players[2] && players[1] != players[3] && players[2] != players[3];
    assert forall i :: 0 <= i < 4 ==> rotated[i] == players[(first + i) % 4];
    assert players == [players[0], players[1], players[2], players[3]];
  }

  // assertCreatedGameState
  ghost predicate CreatedAsserts(s: GameState) {
    && s.stateVersion == 0 && BoardAsserts(s.board)
    && |s.players| == 4 && |s.playerOrder| == 4 && Distinct(s.playerOrder)
    && (forall p :: p in s.playerOrder ==> p in s.players && s.players[p] == NEW_PLAYER)
    && s.bank.resources == STANDARD_SUPPLY
    && |s.bank.deck| == STANDARD_DECK_SIZE && DeckIds(s.bank.deck) == StandardIds()
    && s.turn == TurnState(0, s.playerOrder[0], SetupSettlement, Some(SetupState(1, 0, None)), None, false)
    && s.awards == Awards(None, None) && s.pending.None? && s.winner.None?
    && ValidRandomState(s.random)
  }

  // The closing assertion holds of a new game, so creation never throws.
  lemma CreationAsserts(board: BoardState, order: seq<PlayerId>, deck: seq<CardDefinition>, random: RandomState)
    requires ValidStart(board, order, deck, random) && BoardAsserts(board)
    ensures CreatedAsserts(NewGame(board, order, deck, random))
  {
    hide BoardAsserts, ValidTopology, ValidContents, EmptyBoard, StandardDeck, DeckIds, IdsBelow, ValidRandomState;
    ShuffledDeckHasAllIds(deck);
    assert |deck| == |multiset(deck)| == |multiset(StandardDeck())| == |StandardDeck()|;
    DeckIsWhole();
    var s := NewGame(board, order, deck, random);
    FourListed(order);
    assert s.players.Keys == set p | p in order;
  }

  lemma DeckIsWhole()
    ensures |StandardDeck()| == STANDARD_DECK_SIZE
  {
  }

  lemma FourListed(order: seq<PlayerId>)
    requires |order| == 4 && Distinct(order)
    ensures |set p | p in order| == 4
  {
    assert (set p | p in order) == {order[0], order[1], order[2], order[3]};
  }

  // The seed's state lays out the board; the next word chooses who begins, and the deck is shuffled
  // last. The game goes on from the state that is left.
  ghost predicate Begins(players: seq<PlayerId>, placed: RandomState, first: RandomState, s: GameState)
    requires |players| == 4
  {
    && ValidRandomState(placed) && StopsAt(placed, 4, first)
    && |s.playerOrder| == 4 && (forall k :: 0 <= k < 4 ==> s.playerOrder[k] == players[(Value(first.state) % 4 + k) % 4])
    && IsShuffle(StandardDeck(), first, s.bank.deck, s.random)
  }

  ghost predicate IsDrawnGame(players: seq<PlayerId>, seed: string, topologyOf: seq<PortKind> -> Topology, s: GameState)
    requires |players| == 4
  {
    exists initial, placed, first ::
      IsSeeded(seed, initial) && IsStandardDraw(topologyOf, initial, s.board, placed) && Begins(players, placed, first, s)
  }

  lemma ItIsDrawn(players: seq<PlayerId>, seed: string, topologyOf: seq<PortKind> -> Topology, initial: RandomState, placed: RandomState,
                  deck: seq<CardDefinition>, random: RandomState, s: GameState)
    requires |players| == 4 && ValidRandomState(placed) && IsSeeded(seed, initial) && IsStandardDraw(topologyOf, initial, s.board, placed)
    requires IsShuffle(StandardDeck(), NextInt(placed, 0, 4).1, deck, random)
    requires s.playerOrder == Rotated(players, NextInt(placed, 0, 4).0) && s.bank.deck == deck && s.random == random
    ensures IsDrawnGame(players, seed, topologyOf, s)
  {
    hide NextInt, StopsAt, Value, IsShuffle, StandardDeck, ValidRandomState, IsSeeded, IsStandardDraw;
    NextIntStops(placed, 0, 4);
    assert Begins(players, placed, NextInt(placed, 0, 4).1, s);
  }

  method CreateGame(players: seq<PlayerId>, seed: string, topologyOf: seq<PortKind> -> Topology)
    returns (s: GameState)
    requires |players| == 4 && Distinct(players) && seed != [] && BuildsTopologies(topologyOf)
    ensures Inv(s) && CreatedAsserts(s)
    ensures IsDrawnGame(players, seed, topologyOf, s)
    ensures exists deck, random :: ValidStart(s.board, s.playerOrder, deck, random) && s == NewGame(s.board, s.playerOrder, deck, random)
  {
    assert 4 <= UINT32_RANGE;
    hide *;
    var random := CreateInitialRandomState(seed);
    ghost var initial := random;
    var board;
    board, random := CreateStandardInitialBoard(topologyOf, random);
    ghost var placed := random;
    var first := NextInt(random, 0, 4);
    var order := Rotated(players, first.0);
    RotationIsDistinct(players, first.0);
    DeckFits();
    var deck;
    deck, random := Shuffled(StandardDeck(), first.1);
    s := NewGame(board, order, deck, random);
    StartIsValid(board, order, deck, random);
    NewGameInv(board, order, deck, random);
    CreationAsserts(board, order, deck, random);
    NewGameHas(board, order, deck, random);
    ItIsDrawn(players, seed, topologyOf, initial, placed, deck, random, s);
  }

  lemma StartIsValid(board: BoardState, order: seq<PlayerId>, deck: seq<CardDefinition>, random: RandomState)
    requires BoardAsserts(board) && |order| == 4 && Distinct(order) && multiset(deck) == multiset(StandardDeck()) && ValidRandomState(random)
    ensures ValidStart(board, order, deck, random)
  {
    hide ValidTopology, ValidContents, EmptyBoard, StandardDeck, ValidRandomState, Distinct, StandardTerrains, StandardNumbers, RedsApart;
  }

  lemma NewGameHas(board: BoardState, order: seq<PlayerId>, deck: seq<CardDefinition>, random: RandomState)
    requires |order| == 4
    ensures NewGame(board, order, deck, random).board == board && NewGame(board, order, deck, random).playerOrder == order
    ensures NewGame(board, order, deck, random).bank.deck == deck && NewGame(board, order, deck, random).random == random
  {
  }

  lemma DeckFits()
    ensures |StandardDeck()| <= UINT32_RANGE
  {
  }

  // A created game is reachable, and so is whatever any commands make of it.
  lemma CreatedGamesAreReachable(board: BoardState, order: seq<PlayerId>, deck: seq<CardDefinition>, random: RandomState)
    requires ValidStart(board, order, deck, random)
    ensures Reachable(NewGame(board, order, deck, random))
  {
    hide ValidTopology, ValidContents, EmptyBoard, StandardDeck, NewGame, Execute;
    assert ReachedFrom(NewGame(board, order, deck, random), board, order, deck, random, []);
  }
}
