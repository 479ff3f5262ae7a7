// Choosing four pairwise non-adjacent tiles for the red numbers, by backtracking.

module RedNumbers {
  import opened Board

  const RED_COUNT := 4

  // Adjacency as the interior edges give it.
  ghost predicate Adjacent(t: Topology, x: TileId, y: TileId) {
    exists e :: e in t.edges && |t.edges[e].tileIds| == 2
                && ((t.edges[e].tileIds[0] == x && t.edges[e].tileIds[1] == y)
                    || (t.edges[e].tileIds[0] == y && t.edges[e].tileIds[1] == x))
  }

  // The adjacency sets of the code, as one set of ordered pairs.
  type Adjacency = set<(TileId, TileId)>

  function TileAdjacency(t: Topology): Adjacency {
    (set e | e in t.edges && |t.edges[e].tileIds| == 2 :: (t.edges[e].tileIds[0], t.edges[e].tileIds[1]))
    + (set e | e in t.edges && |t.edges[e].tileIds| == 2 :: (t.edges[e].tileIds[1], t.edges[e].tileIds[0]))
  }

  lemma AdjacencyIsAdjacent(t: Topology, x: TileId, y: TileId)
    ensures (x, y) in TileAdjacency(t) <==> Adjacent(t, x, y)
  {
    if Adjacent(t, x, y) {
      var e :| e in t.edges && |t.edges[e].tileIds| == 2
               && ((t.edges[e].tileIds[0] == x && t.edges[e].tileIds[1] == y)
                   || (t.edges[e].tileIds[0] == y && t.edges[e].tileIds[1] == x));
      assert (t.edges[e].tileIds[0], t.edges[e].tileIds[1]) in TileAdjacency(t);
      assert (t.edges[e].tileIds[1], t.edges[e].tileIds[0]) in TileAdjacency(t);
    }
  }

  predicate Fits(adjacency: Adjacency, selected: seq<TileId>, candidate: TileId) {
    forall i :: 0 <= i < |selected| ==> (candidate, selected[i]) !in adjacency
  }

  // The indices the search picks, as a function.
  function FirstChoice(candidates: seq<TileId>, adjacency: Adjacency, selected: seq<TileId>, start: nat): Option<seq<nat>>
    requires start <= |candidates|
    decreases |candidates| - start
  {
    if |selected| == RED_COUNT then Some([])
    else if start == |candidates| then None
    else
      var deeper :=
        if Fits(adjacency, selected, candidates[start])
        then FirstChoice(candidates, adjacency, selected + [candidates[start]], start + 1) else None;
      if deeper.Some? then Some([start] + deeper.value) else FirstChoice(candidates, adjacency, selected, start + 1)
  }

  lemma FirstChoiceUnfold(candidates: seq<TileId>, adjacency: Adjacency, selected: seq<TileId>, start: nat)
    requires start < |candidates| && |selected| != RED_COUNT
    ensures var deeper :=
              if Fits(adjacency, selected, candidates[start])
              then FirstChoice(candidates, adjacency, selected + [candidates[start]], start + 1) else None;
            FirstChoice(candidates, adjacency, selected, start)
            == if deeper.Some? then Some([start] + deeper.value) else FirstChoice(candidates, adjacency, selected, start + 1)
  {
  }

  function TilesAt(candidates: seq<TileId>, indices: seq<nat>): seq<TileId>
    requires forall i :: 0 <= i < |indices| ==> indices[i] < |candidates|
  {
    seq(|indices|, i requires 0 <= i < |indices| => candidates[indices[i]])
  }

  lemma {:induction false} ChoiceInRange(candidates: seq<TileId>, adjacency: Adjacency, selected: seq<TileId>, start: nat)
    requires start <= |candidates|
    ensures FirstChoice(candidates, adjacency, selected, start).Some? ==>
              forall i :: 0 <= i < |FirstChoice(candidates, adjacency, selected, start).value| ==>
                FirstChoice(candidates, adjacency, selected, start).value[i] < |candidates|
    decreases |candidates| - start
  {
    if |selected| != RED_COUNT && start < |candidates| {
      if Fits(adjacency, selected, candidates[start]) {
        ChoiceInRange(candidates, adjacency, selected + [candidates[start]], start + 1);
      }
      ChoiceInRange(candidates, adjacency, selected, start + 1);
    }
  }

  // The search as written: one shared stack, pushed and popped.
  class Search {
    const candidates: seq<TileId>
    const adjacency: Adjacency
    var selected: seq<TileId>

    constructor (candidates: seq<TileId>, adjacency: Adjacency)
      ensures this.candidates == candidates && this.adjacency == adjacency && selected == []
    {
      this.candidates, this.adjacency, this.selected := candidates, adjacency, [];
    }

    method From(startIndex: nat) returns (result: Option<seq<TileId>>)
      requires startIndex <= |candidates|
      modifies this
      ensures var choice := FirstChoice(candidates, adjacency, old(selected), startIndex);
              && (choice.None? ==> result.None? && selected == old(selected))
              && (choice.Some? ==>
                    && (forall i :: 0 <= i < |choice.value| ==> choice.value[i] < |candidates|)
                    && result == Some(old(selected) + TilesAt(candidates, choice.value)))
      decreases |candidates| - startIndex
    {
      hide FirstChoice, Fits;
      ChoiceInRange(candidates, adjacency, selected, startIndex);
      if |selected| == RED_COUNT {
        FullChoice(candidates, adjacency, selected, startIndex);
        return Some(selected);
      }
      for index := startIndex to |candidates|
        invariant selected == old(selected)
        invariant FirstChoice(candidates, adjacency, selected, index) == FirstChoice(candidates, adjacency, old(selected), startIndex)
      {
        var candidate := candidates[index];
        FirstChoiceUnfold(candidates, adjacency, selected, index);
        if Fits(adjacency, selected, candidate) {
          selected := selected + [candidate];
          result := From(index + 1);
          if result.Some? {
            TilesPrefix(candidates, index, FirstChoice(candidates, adjacency, old(selected) + [candidate], index + 1).value);
            return;
          }
          selected := selected[..|selected| - 1];
          assert selected == old(selected);
        }
      }
      NoChoice(candidates, adjacency, selected);
      result := None;
    }
  }

  lemma FullChoice(candidates: seq<TileId>, adjacency: Adjacency, selected: seq<TileId>, start: nat)
    requires start <= |candidates| && |selected| == RED_COUNT
    ensures FirstChoice(candidates, adjacency, selected, start) == Some([])
    ensures selected + TilesAt(candidates, []) == selected
  {
  }

  lemma NoChoice(candidates: seq<TileId>, adjacency: Adjacency, selected: seq<TileId>)
    requires |selected| != RED_COUNT
    ensures FirstChoice(candidates, adjacency, selected, |candidates|).None?
  {
  }

  lemma TilesPrefix(candidates: seq<TileId>, index: nat, rest: seq<nat>)
    requires index < |candidates| && forall i :: 0 <= i < |rest| ==> rest[i] < |candidates|
    ensures forall i :: 0 <= i < |[index] + rest| ==> ([index] + rest)[i] < |candidates|
    ensures forall selected: seq<TileId> ::
              selected + [candidates[index]] + TilesAt(candidates, rest) == selected + TilesAt(candidates, [index] + rest)
  {
    forall selected: seq<TileId>
      ensures selected + [candidates[index]] + TilesAt(candidates, rest) == selected + TilesAt(candidates, [index] + rest)
    {
      assert TilesAt(candidates, [index] + rest) == [candidates[index]] + TilesAt(candidates, rest);
    }
  }

  // What the choice means.

  // Increasing indices from `start`, filling the stack to four tiles of which no two are adjacent.
  ghost predicate IsChoice(candidates: seq<TileId>, adjacency: Adjacency, selected: seq<TileId>, start: nat, indices: seq<nat>) {
    && |selected| + |indices| == RED_COUNT
    && (forall i :: 0 <= i < |indices| ==> start <= indices[i] < |candidates|)
    && (forall i, j :: 0 <= i < j < |indices| ==> indices[i] < indices[j])
    && (forall i :: 0 <= i < |indices| ==> Fits(adjacency, selected, candidates[indices[i]]))
    && (forall i, j :: 0 <= i < j < |indices| ==> (candidates[indices[j]], candidates[indices[i]]) !in adjacency)
  }

  // Lexicographic order on index lists.
  predicate NotAfter(a: seq<nat>, b: seq<nat>) {
    a == [] || (b != [] && (a[0] < b[0] || (a[0] == b[0] && NotAfter(a[1..], b[1..]))))
  }

  lemma FitsMore(adjacency: Adjacency, selected: seq<TileId>, next: TileId, candidate: TileId)
    ensures Fits(adjacency, selected + [next], candidate) <==> Fits(adjacency, selected, candidate) && (candidate, next) !in adjacency
  {
    var more := selected + [next];
    if Fits(adjacency, more, candidate) {
      forall i | 0 <= i < |selected| ensures (candidate, selected[i]) !in adjacency {
        assert more[i] == selected[i];
      }
      assert more[|selected|] == next;
    }
  }

  // Splitting a choice at its first index.
  lemma ChoiceTail(candidates: seq<TileId>, adjacency: Adjacency, selected: seq<TileId>, start: nat, indices: seq<nat>)
    requires IsChoice(candidates, adjacency, selected, start, indices) && indices != []
    ensures IsChoice(candidates, adjacency, selected + [candidates[indices[0]]], indices[0] + 1, indices[1..])
  {
    var rest := indices[1..];
    forall i | 0 <= i < |rest| ensures Fits(adjacency, selected + [candidates[indices[0]]], candidates[rest[i]]) {
      FitsMore(adjacency, selected, candidates[indices[0]], candidates[rest[i]]);
      assert rest[i] == indices[i + 1];
    }
  }

  lemma ChoiceCons(candidates: seq<TileId>, adjacency: Adjacency, selected: seq<TileId>, start: nat, rest: seq<nat>)
    requires start < |candidates| && Fits(adjacency, selected, candidates[start])
    requires IsChoice(candidates, adjacency, selected + [candidates[start]], start + 1, rest)
    ensures IsChoice(candidates, adjacency, selected, start, [start] + rest)
  {
    var indices := [start] + rest;
    forall i | 0 <= i < |rest|
      ensures Fits(adjacency, selected, candidates[rest[i]]) && (candidates[rest[i]], candidates[start]) !in adjacency
    {
      FitsMore(adjacency, selected, candidates[start], candidates[rest[i]]);
    }
    forall i | 0 <= i < |indices| ensures Fits(adjacency, selected, candidates[indices[i]]) {
      if i > 0 {
        assert indices[i] == rest[i - 1];
      }
    }
  }

  ghost predicate ComesFirst(
    choice: Option<seq<nat>>, candidates: seq<TileId>, adjacency: Adjacency, selected: seq<TileId>, start: nat)
  {
    forall other :: IsChoice(candidates, adjacency, selected, start, other) ==> choice.Some? && NotAfter(choice.value, other)
  }

  // The search finds a choice that no other choice precedes, and fails only if there is none.
  lemma {:induction false} FirstChoiceIsFirst(candidates: seq<TileId>, adjacency: Adjacency, selected: seq<TileId>, start: nat)
    requires start <= |candidates| && |selected| <= RED_COUNT
    ensures var choice := FirstChoice(candidates, adjacency, selected, start);
            && (choice.Some? ==> IsChoice(candidates, adjacency, selected, start, choice.value))
            && ComesFirst(choice, candidates, adjacency, selected, start)
    decreases |candidates| - start
  {
    hide FirstChoice, Fits;
    if |selected| == RED_COUNT {
      FullChoice(candidates, adjacency, selected, start);
    } else if start == |candidates| {
      NoChoice(candidates, adjacency, selected);
      forall other ensures !IsChoice(candidates, adjacency, selected, start, other) {
        if |selected| + |other| == RED_COUNT {
          assert !(start <= other[0] < |candidates|);
        }
      }
    } else {
      FirstChoiceUnfold(candidates, adjacency, selected, start);
      var taken := selected + [candidates[start]];
      var fits := Fits(adjacency, selected, candidates[start]);
      if fits {
        FirstChoiceIsFirst(candidates, adjacency, taken, start + 1);
      }
      FirstChoiceIsFirst(candidates, adjacency, selected, start + 1);
      var choice := FirstChoice(candidates, adjacency, selected, start);
      if fits && FirstChoice(candidates, adjacency, taken, start + 1).Some? {
        ChoiceCons(candidates, adjacency, selected, start, FirstChoice(candidates, adjacency, taken, start + 1).value);
      }
      forall other | IsChoice(candidates, adjacency, selected, start, other)
        ensures choice.Some? && NotAfter(choice.value, other)
      {
        OtherChoice(candidates, adjacency, selected, start, other);
      }
    }
  }

  // Any other choice either takes the first index too or skips it.
  lemma OtherChoice(candidates: seq<TileId>, adjacency: Adjacency, selected: seq<TileId>, start: nat, other: seq<nat>)
    requires start < |candidates| && |selected| < RED_COUNT
    requires IsChoice(candidates, adjacency, selected, start, other)
    requires var taken := selected + [candidates[start]];
             Fits(adjacency, selected, candidates[start]) ==>
               ComesFirst(FirstChoice(candidates, adjacency, taken, start + 1), candidates, adjacency, taken, start + 1)
    requires ComesFirst(FirstChoice(candidates, adjacency, selected, start + 1), candidates, adjacency, selected, start + 1)
    ensures var choice := FirstChoice(candidates, adjacency, selected, start);
            choice.Some? && NotAfter(choice.value, other)
  {
    FirstChoiceUnfold(candidates, adjacency, selected, start);
    hide FirstChoice, Fits;
    if other[0] == start {
      ChoiceTail(candidates, adjacency, selected, start, other);
    } else {
      assert IsChoice(candidates, adjacency, selected, start + 1, other);
    }
  }

  // Four tiles always exist.

  // Tiles that share an edge are axial neighbours.
  predicate AxialNeighbours(x: TileId, y: TileId) {
    var dq, dr := y.q - x.q, y.r - x.r;
    || (dq == 1 && dr == 0) || (dq == -1 && dr == 0) || (dq == 0 && dr == 1)
    || (dq == 0 && dr == -1) || (dq == 1 && dr == -1) || (dq == -1 && dr == 1)
  }

  ghost predicate Axial(adjacency: Adjacency) {
    forall x, y :: (x, y) in adjacency ==> AxialNeighbours(x, y)
  }

  function Colour(x: TileId): nat {
    (x.q - x.r) % 3
  }

  // The three-colouring: neighbours differ in colour.
  lemma NeighboursDiffer(x: TileId, y: TileId)
    requires AxialNeighbours(x, y)
    ensures Colour(x) != Colour(y)
  {
  }

  // The indices of one colour, in order.
  function OfColour(candidates: seq<TileId>, colour: nat, n: nat): seq<nat>
    requires n <= |candidates|
  {
    if n == 0 then []
    else OfColour(candidates, colour, n - 1) + (if Colour(candidates[n - 1]) == colour then [n - 1] else [])
  }

  predicate AllOfColour(candidates: seq<TileId>, colour: nat, indices: seq<nat>, n: nat) {
    && (forall i :: 0 <= i < |indices| ==> indices[i] < n && indices[i] < |candidates| && Colour(candidates[indices[i]]) == colour)
    && (forall i, j :: 0 <= i < j < |indices| ==> indices[i] < indices[j])
  }

  lemma OneMoreOfColour(candidates: seq<TileId>, colour: nat, indices: seq<nat>, n: nat)
    requires 0 < n <= |candidates| && AllOfColour(candidates, colour, indices, n - 1)
    ensures AllOfColour(candidates, colour, indices, n)
    ensures Colour(candidates[n - 1]) == colour ==> AllOfColour(candidates, colour, indices + [n - 1], n)
  {
  }

  lemma {:induction false} OfColourIs(candidates: seq<TileId>, colour: nat, n: nat)
    requires n <= |candidates|
    ensures AllOfColour(candidates, colour, OfColour(candidates, colour, n), n)
  {
    if n > 0 {
      OfColourIs(candidates, colour, n - 1);
      OneMoreOfColour(candidates, colour, OfColour(candidates, colour, n - 1), n);
    }
  }

  lemma {:induction false} ColoursCover(candidates: seq<TileId>, n: nat)
    requires n <= |candidates|
    ensures |OfColour(candidates, 0, n)| + |OfColour(candidates, 1, n)| + |OfColour(candidates, 2, n)| == n
  {
    if n > 0 {
      ColoursCover(candidates, n - 1);
    }
  }

  // Ten tiles hold four of one colour, hence four of which no two are adjacent.
  lemma TenTilesSuffice(candidates: seq<TileId>, adjacency: Adjacency)
    requires |candidates| >= 10 && Axial(adjacency)
    ensures FirstChoice(candidates, adjacency, [], 0).Some?
  {
    hide FirstChoice, OfColour, Colour;
    ColoursCover(candidates, |candidates|);
    var colour := if |OfColour(candidates, 0, |candidates|)| >= 4 then 0 else if |OfColour(candidates, 1, |candidates|)| >= 4 then 1 else 2;
    OfColourIs(candidates, colour, |candidates|);
    var indices := OfColour(candidates, colour, |candidates|)[..4];
    forall i, j | 0 <= i < j < |indices| ensures (candidates[indices[j]], candidates[indices[i]]) !in adjacency {
      if (candidates[indices[j]], candidates[indices[i]]) in adjacency {
        NeighboursDiffer(candidates[indices[j]], candidates[indices[i]]);
      }
    }
    assert IsChoice(candidates, adjacency, [], 0, indices);
    FirstChoiceIsFirst(candidates, adjacency, [], 0);
  }

  // The whole selection. With the tiles of a board it never fails.
  method SelectFirstRedNumberTileIds(candidates: seq<TileId>, t: Topology) returns (tiles: Option<seq<TileId>>)
    requires forall i :: 0 <= i < |candidates| ==> candidates[i] in t.tiles
    ensures var choice := FirstChoice(candidates, TileAdjacency(t), [], 0);
            && (tiles.Some? <==> choice.Some?)
            && (choice.Some? ==>
                  && (forall i :: 0 <= i < |choice.value| ==> choice.value[i] < |candidates|)
                  && tiles.value == TilesAt(candidates, choice.value))
  {
    hide FirstChoice;
    ChoiceInRange(candidates, TileAdjacency(t), [], 0);
    var search := new Search(candidates, TileAdjacency(t));
    tiles := search.From(0);
    if tiles.Some? {
      var choice := FirstChoice(candidates, TileAdjacency(t), [], 0);
      assert [] + TilesAt(candidates, choice.value) == TilesAt(candidates, choice.value);
    }
  }
}
