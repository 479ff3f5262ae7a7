// Assembling a standard board: shuffled terrains, and number tokens with the red ones apart.

module StandardBoard {
  import opened Board
  import opened Words
  import opened SeededRandom
  import opened Shuffle
  import opened Assertions
  import opened RedNumbers
  import opened Safety
  import opened Progress

  const PORT_KINDS := [
    Generic, Generic, Generic, Generic,
    ForResource(Lumber), ForResource(Brick), ForResource(Wool), ForResource(Grain), ForResource(Ore)]

  const TERRAINS := [
    Forest, Forest, Forest, Forest, Hills, Hills, Hills, Pasture, Pasture, Pasture, Pasture,
    Fields, Fields, Fields, Fields, Mountains, Mountains, Mountains, Desert]

  const RED_TOKENS := [6, 6, 8, 8]
  const NON_RED_TOKENS := [2, 3, 3, 4, 4, 5, 5, 9, 9, 10, 10, 11, 11, 12]

  // Shuffling keeps items and their number.
  method Shuffled<T>(items: seq<T>, r: RandomState) returns (shuffled: seq<T>, next: RandomState)
    requires ValidRandomState(r) && |items| <= UINT32_RANGE
    ensures multiset(shuffled) == multiset(items) && |shuffled| == |items| && ValidRandomState(next)
    ensures forall x :: x in shuffled <==> x in items
    ensures IsShuffle(items, r, shuffled, next)
  {
    hide Permute, ShuffleDraws;
    shuffled, next := ShuffleWithRandom(items, r);
    PermuteIsPermutation(items, ShuffleDraws(r, |items|).0);
    SameItems(shuffled, items);
  }

  lemma SameItems<T>(s: seq<T>, t: seq<T>)
    requires multiset(s) == multiset(t)
    ensures |s| == |t| && forall x :: x in s <==> x in t
  {
    assert |multiset(s)| == |s| && |multiset(t)| == |t|;
    forall x ensures x in s <==> x in t {
      assert x in s <==> x in multiset(s);
      assert x in t <==> x in multiset(t);
    }
  }

  // Distinctness is a matter of the multiset alone.

  lemma {:induction false} DistinctCounts<T>(s: seq<T>)
    ensures Distinct(s) <==> forall x :: x in s ==> multiset(s)[x] == 1
  {
    if s != [] {
      DistinctCounts(s[1..]);
      assert s == [s[0]] + s[1..];
      if Distinct(s) {
        forall x | x in s ensures multiset(s)[x] == 1 {
          if x in s[1..] {
            assert x != s[0];
          }
        }
      }
      if forall x :: x in s ==> multiset(s)[x] == 1 {
        assert s[0] !in s[1..] by {
          assert s[0] in s && multiset(s)[s[0]] == 1;
        }
        forall x | x in s[1..] ensures multiset(s[1..])[x] == 1 {
          assert x in s && multiset(s)[x] == 1;
        }
      }
    }
  }

  lemma DistinctStays<T>(s: seq<T>, t: seq<T>)
    requires multiset(s) == multiset(t) && Distinct(s)
    ensures Distinct(t)
  {
    DistinctCounts(s);
    DistinctCounts(t);
    SameItems(s, t);
  }

  lemma {:induction false} DistinctLength<T>(s: seq<T>)
    requires Distinct(s)
    ensures |set x | x in s| == |s|
  {
    if s == [] {
      assert (set x | x in s) == {};
    } else {
      DistinctLength(s[1..]);
      assert (set x | x in s) == {s[0]} + set x | x in s[1..];
    }
  }

  // Tiles other than some, in order.
  function Without(tiles: seq<TileId>, some: set<TileId>): seq<TileId> {
    if tiles == [] then [] else (if tiles[0] in some then [] else [tiles[0]]) + Without(tiles[1..], some)
  }

  lemma {:induction false} WithoutIs(tiles: seq<TileId>, some: set<TileId>)
    requires Distinct(tiles)
    ensures Distinct(Without(tiles, some))
    ensures forall x :: x in Without(tiles, some) <==> x in tiles && x !in some
  {
    if tiles != [] {
      WithoutIs(tiles[1..], some);
    }
  }

  lemma WithoutCount(tiles: seq<TileId>, some: set<TileId>)
    requires Distinct(tiles) && forall x :: x in some ==> x in tiles
    ensures |Without(tiles, some)| == |tiles| - |some|
  {
    WithoutIs(tiles, some);
    DistinctLength(tiles);
    DistinctLength(Without(tiles, some));
    var all, rest := set x | x in tiles, set x | x in Without(tiles, some);
    assert rest == all - some;
    assert some <= all;
  }

  // The tiles, each once, carry the values in order.
  ghost predicate NumberedBy<T>(tokens: map<TileId, T>, tiles: seq<TileId>, values: seq<T>) {
    && Distinct(tiles) && |tiles| == |values|
    && (forall tile :: tile in tiles <==> tile in tokens)
    && (forall i :: 0 <= i < |tiles| ==> tokens[tiles[i]] == values[i])
  }

  // The map that assigns each tile the token at its index.
  method Assign<T>(tiles: seq<TileId>, values: seq<T>) returns (byTile: map<TileId, T>)
    requires |tiles| == |values| && Distinct(tiles)
    ensures NumberedBy(byTile, tiles, values)
  {
    byTile := map[];
    for index := 0 to |tiles|
      invariant forall tile :: tile in byTile <==> tile in tiles[..index]
      invariant forall i :: 0 <= i < index ==> tiles[i] in byTile && byTile[tiles[i]] == values[i]
    {
      assert tiles[..index + 1] == tiles[..index] + [tiles[index]];
      byTile := byTile[tiles[index] := values[index]];
    }
    assert tiles[..|tiles|] == tiles;
  }

  lemma AssignedValues<T>(tiles: seq<TileId>, values: seq<T>, byTile: map<TileId, T>, tile: TileId)
    requires NumberedBy(byTile, tiles, values) && tile in byTile
    ensures byTile[tile] in values
  {
    var i :| 0 <= i < |tiles| && tiles[i] == tile;
  }

  predicate IsRed(token: Option<int>) {
    token == Some(6) || token == Some(8)
  }

  // No two adjacent tiles both carry a red number.
  ghost predicate RedsApart(b: BoardState) {
    forall x, y :: x in b.tileContents && y in b.tileContents && Adjacent(b.topology, x, y) ==>
      !(IsRed(b.tileContents[x].numberToken) && IsRed(b.tileContents[y].numberToken))
  }

  // The chosen tiles are four, distinct, among the candidates and pairwise non-adjacent.
  lemma ChosenTiles(candidates: seq<TileId>, t: Topology, indices: seq<nat>)
    requires Distinct(candidates) && IsChoice(candidates, TileAdjacency(t), [], 0, indices)
    ensures var reds := TilesAt(candidates, indices);
            && |reds| == 4 && Distinct(reds) && (forall x :: x in reds ==> x in candidates)
            && (forall x, y :: x in reds && y in reds && x != y ==> !Adjacent(t, x, y))
  {
    var reds := TilesAt(candidates, indices);
    forall x, y | x in reds && y in reds && x != y ensures !Adjacent(t, x, y) {
      var i :| 0 <= i < |reds| && reds[i] == x;
      var j :| 0 <= j < |reds| && reds[j] == y;
      AdjacencyIsAdjacent(t, x, y);
      AdjacencyIsAdjacent(t, y, x);
      if i < j {
        assert (candidates[indices[j]], candidates[indices[i]]) !in TileAdjacency(t);
      } else {
        assert (candidates[indices[i]], candidates[indices[j]]) !in TileAdjacency(t);
      }
      AdjacentBothWays(t, x, y);
    }
  }

  lemma AdjacentBothWays(t: Topology, x: TileId, y: TileId)
    ensures Adjacent(t, x, y) <==> Adjacent(t, y, x)
  {
  }

  // The tiles of the first choice among the candidates.
  ghost predicate AreFirst(reds: seq<TileId>, candidates: seq<TileId>, t: Topology) {
    var choice := FirstChoice(candidates, TileAdjacency(t), [], 0);
    && choice.Some? && (forall i :: 0 <= i < |choice.value| ==> choice.value[i] < |candidates|)
    && reds == TilesAt(candidates, choice.value)
  }

  // Red tiles for a shuffled list of the non-desert tiles: the failure branch is dead.
  method ChooseReds(candidates: seq<TileId>, t: Topology) returns (reds: seq<TileId>)
    requires Distinct(candidates) && |candidates| >= 10 && Axial(TileAdjacency(t))
    requires forall i :: 0 <= i < |candidates| ==> candidates[i] in t.tiles
    ensures |reds| == 4 && Distinct(reds) && forall x :: x in reds ==> x in candidates
    ensures forall x, y :: x in reds && y in reds && x != y ==> !Adjacent(t, x, y)
    ensures AreFirst(reds, candidates, t)
  {
    hide FirstChoice, TileAdjacency, Adjacent, Axial;
    TenTilesSuffice(candidates, TileAdjacency(t));
    FirstChoiceIsFirst(candidates, TileAdjacency(t), [], 0);
    var selected := SelectFirstRedNumberTileIds(candidates, t);
    reds := selected.value;
    ChosenTiles(candidates, t, FirstChoice(candidates, TileAdjacency(t), [], 0).value);
  }

  // Every standard number token lies on exactly one tile.
  ghost predicate StandardNumbers(tokens: map<TileId, int>) {
    NumberedAs(tokens, RED_TOKENS + NON_RED_TOKENS)
  }

  ghost predicate NumberedAs(tokens: map<TileId, int>, standard: seq<int>) {
    exists tiles, values :: NumberedBy(tokens, tiles, values) && multiset(values) == multiset(standard)
  }

  lemma NumberedJointly(reds: seq<TileId>, redTokens: seq<int>, redByTile: map<TileId, int>,
                        others: seq<TileId>, otherTokens: seq<int>, otherByTile: map<TileId, int>)
    requires forall tile :: tile in reds ==> tile !in others
    requires NumberedBy(redByTile, reds, redTokens) && NumberedBy(otherByTile, others, otherTokens)
    ensures NumberedBy(otherByTile + redByTile, reds + others, redTokens + otherTokens)
  {
    var tiles, values, tokens := reds + others, redTokens + otherTokens, otherByTile + redByTile;
    forall i, j | 0 <= i < j < |tiles| ensures tiles[i] != tiles[j] {
      if i < |reds| <= j {
        assert tiles[i] in reds && tiles[j] in others;
      }
    }
    forall i | 0 <= i < |tiles| ensures tiles[i] in tokens && tokens[tiles[i]] == values[i] {
      if i < |reds| {
        assert tiles[i] in reds;
      } else {
        assert tiles[i] in others && tiles[i] !in redByTile;
      }
    }
  }

  lemma JoinedItems<T>(a: seq<T>, b: seq<T>, c: seq<T>, d: seq<T>)
    requires multiset(a) == multiset(c) && multiset(b) == multiset(d)
    ensures multiset(a + b) == multiset(c + d)
  {
  }

  lemma NumberedTogether(reds: seq<TileId>, redTokens: seq<int>, redByTile: map<TileId, int>,
                         others: seq<TileId>, otherTokens: seq<int>, otherByTile: map<TileId, int>,
                         standardReds: seq<int>, standardOthers: seq<int>)
    requires forall tile :: tile in reds ==> tile !in others
    requires NumberedBy(redByTile, reds, redTokens) && NumberedBy(otherByTile, others, otherTokens)
    requires multiset(redTokens) == multiset(standardReds) && multiset(otherTokens) == multiset(standardOthers)
    ensures NumberedAs(otherByTile + redByTile, standardReds + standardOthers)
  {
    hide NumberedBy;
    NumberedJointly(reds, redTokens, redByTile, others, otherTokens, otherByTile);
    JoinedItems(redTokens, otherTokens, standardReds, standardOthers);
  }

  // What the placement of tokens promises about the tiles it covers.
  ghost predicate WellPlaced(t: Topology, tiles: seq<TileId>, tokens: map<TileId, int>) {
    && (forall tile :: tile in tokens <==> tile in tiles)
    && (forall tile :: tile in tokens ==> ValidToken(tokens[tile]))
    && (forall x, y :: x in tokens && y in tokens && x != y && Adjacent(t, x, y) ==>
          !(IsRed(Some(tokens[x])) && IsRed(Some(tokens[y]))))
  }

  // How the tokens come about: the tiles are shuffled, the first choice of four among them takes
  // the shuffled red tokens, and the other tiles, in their own order, the shuffled others.
  datatype TokenDraws = TokenDraws(
    candidates: seq<TileId>, reds: seq<TileId>, redTokens: seq<int>, otherTokens: seq<int>,
    afterCandidates: RandomState, afterReds: RandomState)

  ghost predicate TokensDrawn(tiles: seq<TileId>, t: Topology, r: RandomState, d: TokenDraws, tokens: map<TileId, int>, next: RandomState) {
    && IsShuffle(tiles, r, d.candidates, d.afterCandidates) && AreFirst(d.reds, d.candidates, t)
    && IsShuffle(RED_TOKENS, d.afterCandidates, d.redTokens, d.afterReds)
    && IsShuffle(NON_RED_TOKENS, d.afterReds, d.otherTokens, next)
    && NumberedBy(tokens, d.reds + Without(tiles, set x | x in d.reds), d.redTokens + d.otherTokens)
  }

  // The tokens of all tiles but the desert.
  method PlaceTokens(tiles: seq<TileId>, t: Topology, r: RandomState) returns (tokens: map<TileId, int>, next: RandomState)
    requires Distinct(tiles) && |tiles| == 18 && ValidRandomState(r) && Axial(TileAdjacency(t))
    requires forall i :: 0 <= i < |tiles| ==> tiles[i] in t.tiles
    ensures WellPlaced(t, tiles, tokens) && StandardNumbers(tokens) && ValidRandomState(next)
    ensures exists d :: TokensDrawn(tiles, t, r, d, tokens, next)
  {
    hide *;
    TokenCounts();
    var candidates, r1 := Shuffled(tiles, r);
    CandidatesAre(tiles, candidates, t);
    var reds := ChooseReds(candidates, t);
    var redTokens, r2 := Shuffled(RED_TOKENS, r1);
    var redByTile := Assign(reds, redTokens);
    var nonRedTokens, r3 := Shuffled(NON_RED_TOKENS, r2);
    var redSet := set x | x in reds;
    OthersAre(tiles, reds);
    var others := Without(tiles, redSet);
    var otherByTile := Assign(others, nonRedTokens);
    tokens := otherByTile + redByTile;
    next := r3;
    RedValues(redTokens, nonRedTokens);
    TokensWellPlaced(t, tiles, reds, redTokens, redByTile, others, nonRedTokens, otherByTile);
    NumberedTogether(reds, redTokens, redByTile, others, nonRedTokens, otherByTile, RED_TOKENS, NON_RED_TOKENS);
    AreStandard(tokens);
    NumberedJointly(reds, redTokens, redByTile, others, nonRedTokens, otherByTile);
    AreDrawn(tiles, t, r, TokenDraws(candidates, reds, redTokens, nonRedTokens, r1, r2), tokens, next);
  }

  lemma AreDrawn(tiles: seq<TileId>, t: Topology, r: RandomState, d: TokenDraws, tokens: map<TileId, int>, next: RandomState)
    requires IsShuffle(tiles, r, d.candidates, d.afterCandidates) && AreFirst(d.reds, d.candidates, t)
    requires IsShuffle(RED_TOKENS, d.afterCandidates, d.redTokens, d.afterReds)
    requires IsShuffle(NON_RED_TOKENS, d.afterReds, d.otherTokens, next)
    requires NumberedBy(tokens, d.reds + Without(tiles, set x | x in d.reds), d.redTokens + d.otherTokens)
    ensures exists d :: TokensDrawn(tiles, t, r, d, tokens, next)
  {
    hide IsShuffle, AreFirst, NumberedBy, Without;
    assert TokensDrawn(tiles, t, r, d, tokens, next);
  }

  lemma TokenCounts()
    ensures |RED_TOKENS| == 4 && |NON_RED_TOKENS| == 14 && UINT32_RANGE >= 19
  {
  }

  lemma AreStandard(tokens: map<TileId, int>)
    requires NumberedAs(tokens, RED_TOKENS + NON_RED_TOKENS)
    ensures StandardNumbers(tokens)
  {
    hide NumberedAs;
  }

  lemma CandidatesAre(tiles: seq<TileId>, candidates: seq<TileId>, t: Topology)
    requires Distinct(tiles) && multiset(candidates) == multiset(tiles) && forall x :: x in candidates <==> x in tiles
    requires forall i :: 0 <= i < |tiles| ==> tiles[i] in t.tiles
    ensures Distinct(candidates) && forall i :: 0 <= i < |candidates| ==> candidates[i] in t.tiles
  {
    DistinctStays(tiles, candidates);
    forall i | 0 <= i < |candidates| ensures candidates[i] in t.tiles {
      assert candidates[i] in tiles;
    }
  }

  lemma OthersAre(tiles: seq<TileId>, reds: seq<TileId>)
    requires Distinct(tiles) && Distinct(reds) && forall x :: x in reds ==> x in tiles
    ensures var others := Without(tiles, set x | x in reds);
            |others| == |tiles| - |reds| && Distinct(others) && forall x :: x in others <==> x in tiles && x !in reds
  {
    var redSet := set x | x in reds;
    DistinctLength(reds);
    WithoutCount(tiles, redSet);
    WithoutIs(tiles, redSet);
  }

  lemma TokensWellPlaced(t: Topology, tiles: seq<TileId>, reds: seq<TileId>, redTokens: seq<int>, redByTile: map<TileId, int>,
                         others: seq<TileId>, otherTokens: seq<int>, otherByTile: map<TileId, int>)
    requires NumberedBy(redByTile, reds, redTokens) && NumberedBy(otherByTile, others, otherTokens)
    requires forall x :: x in reds ==> x in tiles
    requires forall x :: x in others <==> x in tiles && x !in reds
    requires forall x, y :: x in reds && y in reds && x != y ==> !Adjacent(t, x, y)
    requires forall n :: n in redTokens ==> ValidToken(n) && IsRed(Some(n))
    requires forall n :: n in otherTokens ==> ValidToken(n) && !IsRed(Some(n))
    ensures WellPlaced(t, tiles, otherByTile + redByTile)
  {
    hide Adjacent, ValidToken, IsRed, Distinct;
    TokensPlaced(reds, redTokens, redByTile, others, otherTokens, otherByTile);
    var tokens := otherByTile + redByTile;
    forall x, y | x in tokens && y in tokens && x != y && Adjacent(t, x, y)
      ensures !(IsRed(Some(tokens[x])) && IsRed(Some(tokens[y])))
    {
      assert !(x in reds && y in reds);
    }
  }

  lemma RedValues(redTokens: seq<int>, nonRedTokens: seq<int>)
    requires forall n :: n in redTokens <==> n in RED_TOKENS
    requires forall n :: n in nonRedTokens <==> n in NON_RED_TOKENS
    ensures forall n :: n in redTokens ==> ValidToken(n) && IsRed(Some(n))
    ensures forall n :: n in nonRedTokens ==> ValidToken(n) && !IsRed(Some(n))
  {
  }

  // Red tokens sit on the red tiles and nowhere else.
  lemma TokensPlaced(reds: seq<TileId>, redTokens: seq<int>, redByTile: map<TileId, int>,
                     others: seq<TileId>, otherTokens: seq<int>, otherByTile: map<TileId, int>)
    requires NumberedBy(redByTile, reds, redTokens) && NumberedBy(otherByTile, others, otherTokens)
    requires forall n :: n in redTokens ==> ValidToken(n) && IsRed(Some(n))
    requires forall n :: n in otherTokens ==> ValidToken(n) && !IsRed(Some(n))
    ensures var tokens := otherByTile + redByTile;
            forall tile :: tile in tokens ==> ValidToken(tokens[tile]) && (IsRed(Some(tokens[tile])) <==> tile in reds)
  {
    hide ValidToken, IsRed;
    var tokens := otherByTile + redByTile;
    forall tile | tile in tokens ensures ValidToken(tokens[tile]) && (IsRed(Some(tokens[tile])) <==> tile in reds) {
      if tile in reds {
        AssignedValues(reds, redTokens, redByTile, tile);
      } else {
        AssignedValues(others, otherTokens, otherByTile, tile);
      }
    }
  }

  // What the topology builder delivers for nine port kinds: a valid topology whose tiles that
  // share an edge are axial neighbours.
  ghost predicate BuildsTopologies(topologyOf: seq<PortKind> -> Topology) {
    forall ports {:trigger topologyOf(ports)} :: |ports| == 9 ==>
      ValidTopology(topologyOf(ports)) && Axial(TileAdjacency(topologyOf(ports)))
  }

  ghost predicate StandardPorts(ports: seq<PortKind>) {
    multiset(ports) == multiset(PORT_KINDS)
  }

  ghost predicate StandardTerrains(terrains: seq<Terrain>) {
    multiset(terrains) == multiset(TERRAINS)
  }

  // The terrains of all tiles, in tile order.
  ghost function TerrainsInOrder(b: BoardState): seq<Terrain>
    requires forall tile :: tile in b.topology.tileOrder ==> tile in b.tileContents
  {
    seq(|b.topology.tileOrder|, i requires 0 <= i < |b.topology.tileOrder| =>
      var tile := b.topology.tileOrder[i];
      assert tile in b.topology.tileOrder;
      b.tileContents[tile].terrain)
  }

  method ShuffledPorts(r: RandomState) returns (ports: seq<PortKind>, next: RandomState)
    requires ValidRandomState(r)
    ensures |ports| == 9 && StandardPorts(ports) && ValidRandomState(next)
    ensures IsShuffle(PORT_KINDS, r, ports, next)
  {
    ports, next := Shuffled(PORT_KINDS, r);
  }

  method ShuffledTerrains(r: RandomState) returns (terrains: seq<Terrain>, next: RandomState)
    requires ValidRandomState(r)
    ensures |terrains| == 19 && Desert in terrains && StandardTerrains(terrains) && ValidRandomState(next)
    ensures IsShuffle(TERRAINS, r, terrains, next)
  {
    terrains, next := Shuffled(TERRAINS, r);
    assert TERRAINS[18] == Desert;
  }

  // How the board comes about: the shuffled terrains in tile order, the robber on the desert, and
  // the drawn tokens on the other tiles.
  ghost predicate BoardDrawn(b: BoardState, r: RandomState, terrains: seq<Terrain>, after: RandomState, d: TokenDraws, next: RandomState) {
    && (forall tile :: tile in b.topology.tileOrder ==> tile in b.tileContents)
    && IsShuffle(TERRAINS, r, terrains, after) && TerrainsInOrder(b) == terrains
    && TokensDrawn(Without(b.topology.tileOrder, {b.robberTileId}), b.topology, after, d, TokensOf(b), next)
  }

  lemma BoardIsDrawn(b: BoardState, r: RandomState, terrains: seq<Terrain>, after: RandomState, next: RandomState)
    requires forall tile :: tile in b.topology.tileOrder ==> tile in b.tileContents
    requires IsShuffle(TERRAINS, r, terrains, after) && TerrainsInOrder(b) == terrains
    requires exists d :: TokensDrawn(Without(b.topology.tileOrder, {b.robberTileId}), b.topology, after, d, TokensOf(b), next)
    ensures exists terrains, after, d :: BoardDrawn(b, r, terrains, after, d, next)
  {
    hide IsShuffle, TokensDrawn, TerrainsInOrder, TokensOf, Without;
    var d :| TokensDrawn(Without(b.topology.tileOrder, {b.robberTileId}), b.topology, after, d, TokensOf(b), next);
    assert BoardDrawn(b, r, terrains, after, d, next);
  }

  // Terrains and tokens over a topology's tiles.
  method FillBoard(t: Topology, r: RandomState) returns (board: BoardState, next: RandomState)
    requires ValidRandomState(r) && ValidTopology(t) && Axial(TileAdjacency(t))
    ensures board.topology == t && ValidContents(board) && EmptyBoard(board)
    ensures board.tileContents[board.robberTileId].terrain == Desert
    ensures forall tile :: tile in board.topology.tileOrder ==> tile in board.tileContents
    ensures StandardTerrains(TerrainsInOrder(board)) && StandardNumbers(TokensOf(board))
    ensures RedsApart(board)
    ensures ValidRandomState(next)
    ensures exists terrains, after, d :: BoardDrawn(board, r, terrains, after, d, next)
  {
    hide *;
    TilesListed(t);
    NotSelfAdjacent(t);
    var terrains, r1 := ShuffledTerrains(r);
    var desert, terrainByTile := PlaceTerrains(t.tileOrder, terrains);
    NonDesertTiles(t, desert);
    var nonDesert := Without(t.tileOrder, {desert});
    var tokens;
    tokens, next := PlaceTokens(nonDesert, t, r1);
    board := BoardState(t, Contents(terrainByTile, tokens), map[], map[], desert);
    ContentsAre(terrainByTile, tokens);
    ContentsAreValid(board, nonDesert, tokens, desert);
    PlacedTiles(t, nonDesert, tokens);
    TerrainsAre(board, terrainByTile, tokens, terrains);
    TokensAre(board, tokens, desert);
    NothingBuilt(board);
    BoardIsDrawn(board, r, terrains, r1, next);
  }

  // The number tokens on the board.
  function TokensOf(b: BoardState): map<TileId, int> {
    map tile | tile in b.tileContents && b.tileContents[tile].numberToken.Some? :: b.tileContents[tile].numberToken.value
  }

  lemma TokensAre(b: BoardState, tokens: map<TileId, int>, desert: TileId)
    requires forall tile :: tile in tokens <==> tile in b.tileContents && tile != desert
    requires forall tile :: tile in b.tileContents && b.tileContents[tile].terrain == Desert ==> tile == desert
    requires forall tile :: tile in b.tileContents ==>
               b.tileContents[tile].numberToken
               == if b.tileContents[tile].terrain == Desert || tile !in tokens then None else Some(tokens[tile])
    ensures TokensOf(b) == tokens
  {
  }

  lemma NothingBuilt(b: BoardState)
    requires b.buildings == map[] && b.roads == map[]
    ensures EmptyBoard(b)
  {
  }

  // assertStandardInitialBoard
  ghost predicate BoardAsserts(b: BoardState) {
    && ValidTopology(b.topology) && ValidContents(b) && EmptyBoard(b)
    && (forall tile :: tile in b.topology.tileOrder ==> tile in b.tileContents)
    && StandardTerrains(TerrainsInOrder(b)) && StandardNumbers(TokensOf(b)) && RedsApart(b)
    && b.tileContents[b.robberTileId].terrain == Desert
  }

  // The whole course of the draws: ports first, then terrains, then tokens.
  ghost predicate LaidOut(topologyOf: seq<PortKind> -> Topology, r: RandomState, b: BoardState, ports: seq<PortKind>, after: RandomState,
                          terrains: seq<Terrain>, filled: RandomState, d: TokenDraws, next: RandomState)
  {
    && IsShuffle(PORT_KINDS, r, ports, after) && b.topology == topologyOf(ports)
    && BoardDrawn(b, after, terrains, filled, d, next)
  }

  ghost predicate IsStandardDraw(topologyOf: seq<PortKind> -> Topology, r: RandomState, b: BoardState, next: RandomState) {
    exists ports, after, terrains, filled, d ::
      StandardPorts(ports) && LaidOut(topologyOf, r, b, ports, after, terrains, filled, d, next)
  }

  lemma IsLaidOut(topologyOf: seq<PortKind> -> Topology, r: RandomState, b: BoardState, ports: seq<PortKind>, after: RandomState, next: RandomState)
    requires StandardPorts(ports) && IsShuffle(PORT_KINDS, r, ports, after) && b.topology == topologyOf(ports)
    requires exists terrains, filled, d :: BoardDrawn(b, after, terrains, filled, d, next)
    ensures IsStandardDraw(topologyOf, r, b, next)
  {
    hide IsShuffle, BoardDrawn, StandardPorts;
    var terrains, filled, d :| BoardDrawn(b, after, terrains, filled, d, next);
    assert LaidOut(topologyOf, r, b, ports, after, terrains, filled, d, next);
  }

  // The whole board. None of its throws can happen, and its closing assertion holds.
  method CreateStandardInitialBoard(topologyOf: seq<PortKind> -> Topology, r: RandomState) returns (board: BoardState, next: RandomState)
    requires ValidRandomState(r) && BuildsTopologies(topologyOf)
    ensures BoardAsserts(board) && ValidRandomState(next)
    ensures IsStandardDraw(topologyOf, r, board, next)
  {
    var ports, r1 := ShuffledPorts(r);
    var t := topologyOf(ports);
    assert ValidTopology(t) && Axial(TileAdjacency(t));
    hide *;
    board, next := FillBoard(t, r1);
    FilledIsStandard(board);
    IsLaidOut(topologyOf, r, board, ports, r1, next);
  }

  lemma FilledIsStandard(b: BoardState)
    requires ValidTopology(b.topology) && ValidContents(b) && EmptyBoard(b)
    requires forall tile :: tile in b.topology.tileOrder ==> tile in b.tileContents
    requires StandardTerrains(TerrainsInOrder(b)) && StandardNumbers(TokensOf(b)) && RedsApart(b)
    requires b.tileContents[b.robberTileId].terrain == Desert
    ensures BoardAsserts(b)
  {
    hide ValidTopology, ValidContents, EmptyBoard, StandardTerrains, StandardNumbers, RedsApart, TerrainsInOrder, TokensOf;
  }

  function Contents(terrainByTile: map<TileId, Terrain>, tokens: map<TileId, int>): map<TileId, TileContent> {
    map tile | tile in terrainByTile ::
      TileContent(terrainByTile[tile], if terrainByTile[tile] == Desert || tile !in tokens then None else Some(tokens[tile]))
  }

  lemma ContentsAre(terrainByTile: map<TileId, Terrain>, tokens: map<TileId, int>)
    ensures forall tile :: tile in Contents(terrainByTile, tokens) <==> tile in terrainByTile
    ensures forall tile :: tile in terrainByTile ==>
              Contents(terrainByTile, tokens)[tile]
              == TileContent(terrainByTile[tile], if terrainByTile[tile] == Desert || tile !in tokens then None else Some(tokens[tile]))
  {
  }

  lemma TerrainsAre(b: BoardState, terrainByTile: map<TileId, Terrain>, tokens: map<TileId, int>, terrains: seq<Terrain>)
    requires b.tileContents == Contents(terrainByTile, tokens) && |terrains| == |b.topology.tileOrder|
    requires forall tile :: tile in terrainByTile <==> tile in b.topology.tileOrder
    requires forall i :: 0 <= i < |b.topology.tileOrder| ==> terrainByTile[b.topology.tileOrder[i]] == terrains[i]
    ensures TerrainsInOrder(b) == terrains
  {
    forall i | 0 <= i < |terrains| ensures TerrainsInOrder(b)[i] == terrains[i] {
      assert b.topology.tileOrder[i] in b.topology.tileOrder;
    }
  }

  // The terrains in tile order, and the first desert tile.
  method PlaceTerrains(tiles: seq<TileId>, terrains: seq<Terrain>) returns (desert: TileId, terrainByTile: map<TileId, Terrain>)
    requires Distinct(tiles) && |tiles| == |terrains| && Desert in terrains
    ensures desert in tiles && desert in terrainByTile && terrainByTile[desert] == Desert
    ensures forall tile :: tile in terrainByTile <==> tile in tiles
    ensures forall i :: 0 <= i < |tiles| ==> terrainByTile[tiles[i]] == terrains[i]
    ensures StandardTerrains(terrains) ==> forall tile :: tile in terrainByTile && terrainByTile[tile] == Desert ==> tile == desert
  {
    hide StandardTerrains;
    terrainByTile := Assign(tiles, terrains);
    var d: nat := 0;
    ghost var last: nat :| last < |terrains| && terrains[last] == Desert;
    while terrains[d] != Desert
      invariant d <= last
      decreases last - d
    {
      d := d + 1;
    }
    desert := tiles[d];
    assert desert in tiles;
    if StandardTerrains(terrains) {
      forall tile | tile in terrainByTile && terrainByTile[tile] == Desert ensures tile == desert {
        var i :| 0 <= i < |tiles| && tiles[i] == tile;
        OneDesert(terrains, i, d);
      }
    }
  }

  lemma OneDesert(terrains: seq<Terrain>, i: nat, j: nat)
    requires StandardTerrains(terrains) && i < |terrains| && j < |terrains|
    requires terrains[i] == Desert && terrains[j] == Desert
    ensures i == j
  {
    assert multiset(TERRAINS)[Desert] == 1;
    if i < j {
      TwiceCounted(terrains, i, j);
    } else if j < i {
      TwiceCounted(terrains, j, i);
    }
  }

  lemma TwiceCounted<T>(s: seq<T>, i: nat, j: nat)
    requires i < j < |s| && s[i] == s[j]
    ensures multiset(s)[s[i]] >= 2
  {
    assert s == s[..i] + [s[i]] + s[i + 1..j] + [s[j]] + s[j + 1..];
  }

  lemma NonDesertTiles(t: Topology, desert: TileId)
    requires Distinct(t.tileOrder) && |t.tileOrder| == 19 && desert in t.tileOrder
    requires forall tile :: tile in t.tileOrder <==> tile in t.tiles
    ensures var nonDesert := Without(t.tileOrder, {desert});
            && Distinct(nonDesert) && |nonDesert| == 18
            && (forall tile :: tile in nonDesert <==> tile in t.tiles && tile != desert)
            && (forall i :: 0 <= i < |nonDesert| ==> nonDesert[i] in t.tiles)
  {
    WithoutCount(t.tileOrder, {desert});
    WithoutIs(t.tileOrder, {desert});
    hide Without;
    var nonDesert := Without(t.tileOrder, {desert});
    forall i | 0 <= i < |nonDesert| ensures nonDesert[i] in t.tiles {
      assert nonDesert[i] in nonDesert;
    }
  }

  lemma NotSelfAdjacent(t: Topology)
    requires Axial(TileAdjacency(t))
    ensures forall x :: !Adjacent(t, x, x)
  {
    hide Adjacent, TileAdjacency;
    forall x ensures !Adjacent(t, x, x) {
      AdjacencyIsAdjacent(t, x, x);
    }
  }

  lemma TilesListed(t: Topology)
    requires ValidTopology(t)
    ensures Distinct(t.tileOrder) && |t.tileOrder| == 19 && forall tile :: tile in t.tileOrder <==> tile in t.tiles
  {
    DistinctLength(t.tileOrder);
    assert (set x | x in t.tileOrder) == t.tiles.Keys;
    assert |t.tiles| == |t.tiles.Keys|;
  }

  lemma PlacedTiles(t: Topology, tiles: seq<TileId>, tokens: map<TileId, int>)
    requires WellPlaced(t, tiles, tokens)
    ensures forall tile :: tile in tokens <==> tile in tiles
  {
  }

  lemma ContentsAreValid(b: BoardState, nonDesert: seq<TileId>, tokens: map<TileId, int>, desert: TileId)
    requires b.robberTileId == desert && desert in b.topology.tiles
    requires forall tile :: tile in b.tileContents <==> tile in b.topology.tiles
    requires desert in b.tileContents && b.tileContents[desert].terrain == Desert
    requires WellPlaced(b.topology, nonDesert, tokens)
    requires forall tile :: tile in nonDesert <==> tile in b.topology.tiles && tile != desert
    requires forall tile :: tile in b.tileContents ==>
               b.tileContents[tile].numberToken
               == if b.tileContents[tile].terrain == Desert || tile !in tokens then None else Some(tokens[tile])
    requires forall x :: !Adjacent(b.topology, x, x)
    ensures ValidContents(b) && RedsApart(b)
  {
    hide Adjacent;
    assert b.tileContents.Keys == b.topology.tiles.Keys;
  }
}
