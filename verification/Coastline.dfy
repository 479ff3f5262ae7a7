// The coastline walk: it returns normally exactly when the coastal edges form one simple cycle.

module Coastline {
  import opened Board
  import opened LongestRoad

  type VertexSet = set<VertexId>

  // A simple graph: every edge ID spells its lower endpoint first.
  ghost predicate IsSimple(edges: set<EdgeId>) {
    forall e :: e in edges ==> e.lo < e.hi
  }

  predicate Touches(e: EdgeId, v: VertexId) {
    e.lo == v || e.hi == v
  }

  function Opposite(e: EdgeId, v: VertexId): VertexId {
    if e.lo == v then e.hi else e.lo
  }

  function Neighbours(edges: set<EdgeId>, v: VertexId): VertexSet {
    set e | e in edges && Touches(e, v) :: Opposite(e, v)
  }

  function Ends(edges: set<EdgeId>): VertexSet {
    (set e | e in edges :: e.lo) + (set e | e in edges :: e.hi)
  }

  lemma NeighbourIff(edges: set<EdgeId>, v: VertexId, w: VertexId)
    requires IsSimple(edges)
    ensures w in Neighbours(edges, v) <==> CreateEdgeId(v, w) in edges
    ensures w in Neighbours(edges, v) ==> v != w && v in Neighbours(edges, w) && v in Ends(edges) && w in Ends(edges)
  {
    if w in Neighbours(edges, v) {
      var e :| e in edges && Touches(e, v) && Opposite(e, v) == w;
      assert e == CreateEdgeId(v, w);
      assert Touches(e, w) && Opposite(e, w) == v;
    }
    if CreateEdgeId(v, w) in edges {
      var e := CreateEdgeId(v, w);
      assert Touches(e, v) && Opposite(e, v) == w;
    }
  }

  // One simple cycle: at least three distinct vertices whose successive pairs are exactly the edges.
  ghost predicate IsCycleOf(edges: set<EdgeId>, ring: seq<VertexId>) {
    && |ring| >= 3 && Distinct(ring)
    && (forall i :: 0 <= i < |ring| ==> RingEdge(ring, i) in edges)
    && (forall e :: e in edges ==> exists i :: 0 <= i < |ring| && RingEdge(ring, i) == e)
  }

  function RingEdge(ring: seq<VertexId>, i: int): EdgeId
    requires 0 <= i < |ring|
  {
    CreateEdgeId(ring[i], ring[Succ(|ring|, i)])
  }

  // Positions around a ring of n.

  function Succ(n: int, i: int): int {
    if i + 1 == n then 0 else i + 1
  }

  function Pred(n: int, i: int): int {
    if i == 0 then n - 1 else i - 1
  }

  function Along(n: int, k: int, m: int): int {
    if k + m >= n then k + m - n else k + m
  }

  ghost predicate IsOneCycle(edges: set<EdgeId>) {
    exists ring :: IsCycleOf(edges, ring)
  }

  // Two neighbours each.
  ghost predicate IsTwoRegular(edges: set<EdgeId>) {
    forall v :: v in Ends(edges) ==> |Neighbours(edges, v)| == 2
  }

  lemma EdgeOfRing(edges: set<EdgeId>, ring: seq<VertexId>, v: VertexId, w: VertexId) returns (i: int)
    requires IsSimple(edges) && IsCycleOf(edges, ring) && w in Neighbours(edges, v)
    ensures 0 <= i < |ring|
    ensures (ring[i] == v && ring[Succ(|ring|, i)] == w) || (ring[i] == w && ring[Succ(|ring|, i)] == v)
  {
    NeighbourIff(edges, v, w);
    i :| 0 <= i < |ring| && RingEdge(ring, i) == CreateEdgeId(v, w);
  }

  lemma EndIsEdge(edges: set<EdgeId>, v: VertexId) returns (e: EdgeId)
    requires v in Ends(edges)
    ensures e in edges && Touches(e, v)
  {
    if v in set e | e in edges :: e.lo {
      e :| e in edges && e.lo == v;
    } else {
      e :| e in edges && e.hi == v;
    }
  }

  lemma EndOnRing(edges: set<EdgeId>, ring: seq<VertexId>, v: VertexId) returns (k: int)
    requires IsSimple(edges) && IsCycleOf(edges, ring) && v in Ends(edges)
    ensures 0 <= k < |ring| && ring[k] == v
  {
    var e := EndIsEdge(edges, v);
    var i :| 0 <= i < |ring| && RingEdge(ring, i) == e;
    k := if ring[i] == v then i else Succ(|ring|, i);
  }

  lemma RingParts(edges: set<EdgeId>, ring: seq<VertexId>)
    requires IsCycleOf(edges, ring)
    ensures |ring| >= 3 && Distinct(ring) && forall i :: 0 <= i < |ring| ==> RingEdge(ring, i) in edges
  {
  }

  lemma RingNeighbours(edges: set<EdgeId>, ring: seq<VertexId>, k: int)
    requires IsSimple(edges) && IsCycleOf(edges, ring) && 0 <= k < |ring|
    ensures |ring| >= 3
    ensures ring[Succ(|ring|, k)] in Neighbours(edges, ring[k]) && ring[Pred(|ring|, k)] in Neighbours(edges, ring[k])
  {
    hide IsCycleOf, Neighbours, IsSimple;
    RingParts(edges, ring);
    var p := Pred(|ring|, k);
    assert Succ(|ring|, p) == k;
    assert RingEdge(ring, k) in edges && RingEdge(ring, p) in edges;
    NeighbourIff(edges, ring[k], ring[Succ(|ring|, k)]);
    NeighbourIff(edges, ring[p], ring[k]);
  }

  lemma OnlyRingNeighbours(edges: set<EdgeId>, ring: seq<VertexId>, k: int, w: VertexId)
    requires IsSimple(edges) && IsCycleOf(edges, ring) && 0 <= k < |ring| && w in Neighbours(edges, ring[k])
    ensures |ring| >= 3
    ensures w == ring[Succ(|ring|, k)] || w == ring[Pred(|ring|, k)]
  {
    hide IsCycleOf, Neighbours, IsSimple, Distinct;
    RingParts(edges, ring);
    var i := EdgeOfRing(edges, ring, ring[k], w);
    if ring[i] == ring[k] && ring[Succ(|ring|, i)] == w {
      SameIndex(ring, i, k);
    } else {
      SameIndex(ring, Succ(|ring|, i), k);
    }
  }

  // A cycle is two-regular.
  lemma CycleNeighbours(edges: set<EdgeId>, ring: seq<VertexId>, k: int)
    requires IsSimple(edges) && IsCycleOf(edges, ring) && 0 <= k < |ring|
    ensures |ring| >= 3
    ensures var n := |ring|;
            && Neighbours(edges, ring[k]) == {ring[Succ(n, k)], ring[Pred(n, k)]}
            && ring[Succ(n, k)] != ring[Pred(n, k)]
  {
    hide IsCycleOf, Neighbours, IsSimple, Distinct;
    var n := |ring|;
    RingParts(edges, ring);
    RingNeighbours(edges, ring, k);
    forall w | w in Neighbours(edges, ring[k]) ensures w == ring[Succ(n, k)] || w == ring[Pred(n, k)] {
      OnlyRingNeighbours(edges, ring, k, w);
    }
    if ring[Succ(n, k)] == ring[Pred(n, k)] {
      SameIndex(ring, Succ(n, k), Pred(n, k));
    }
  }

  lemma SameIndex(ring: seq<VertexId>, i: int, j: int)
    requires Distinct(ring) && 0 <= i < |ring| && 0 <= j < |ring| && ring[i] == ring[j]
    ensures i == j
  {
  }

  lemma CycleIsTwoRegular(edges: set<EdgeId>, ring: seq<VertexId>)
    requires IsSimple(edges) && IsCycleOf(edges, ring)
    ensures IsTwoRegular(edges) && edges != {}
  {
    assert RingEdge(ring, 0) in edges;
    forall v | v in Ends(edges) ensures |Neighbours(edges, v)| == 2 {
      var k := EndOnRing(edges, ring, v);
      CycleNeighbours(edges, ring, k);
    }
  }

  // Paths of the walk.

  // All vertices but the last differ; the last differs from all but possibly the first.
  ghost predicate IsPath(edges: set<EdgeId>, path: seq<VertexId>) {
    && |path| >= 2
    && (forall i :: 0 <= i < |path| - 1 ==> path[i + 1] in Neighbours(edges, path[i]))
    && (forall i, j :: 0 <= i < j < |path| && (i, j) != (0, |path| - 1) ==> path[i] != path[j])
  }

  function PathEdge(path: seq<VertexId>, i: int): EdgeId
    requires 0 <= i < |path| - 1
  {
    CreateEdgeId(path[i], path[i + 1])
  }

  lemma TwoNeighbours(edges: set<EdgeId>, v: VertexId, x: VertexId, y: VertexId, z: VertexId)
    requires |Neighbours(edges, v)| == 2 && x in Neighbours(edges, v) && y in Neighbours(edges, v) && z in Neighbours(edges, v)
    requires x != y
    ensures z == x || z == y
  {
    var rest := Neighbours(edges, v) - {x, y};
    assert Neighbours(edges, v) == {x, y} + rest;
    assert |rest| == 0;
  }

  // The step forward reaches the start or a fresh vertex.
  lemma StepForward(edges: set<EdgeId>, path: seq<VertexId>, next: VertexId)
    requires IsSimple(edges) && IsTwoRegular(edges) && IsPath(edges, path)
    requires path[|path| - 1] != path[0]
    requires next in Neighbours(edges, path[|path| - 1]) && next != path[|path| - 2]
    ensures IsPath(edges, path + [next])
  {
    var n := |path|;
    var longer := path + [next];
    var current := path[n - 1];
    forall j | 1 <= j < n ensures path[j] != next {
      NeighbourIff(edges, current, next);
      if j < n - 1 && path[j] == next {
        NeighbourIff(edges, path[j - 1], path[j]);
        NeighbourIff(edges, path[j], path[j + 1]);
        TwoNeighbours(edges, path[j], path[j - 1], path[j + 1], current);
      }
    }
    forall i | 0 <= i < |longer| - 1 ensures longer[i + 1] in Neighbours(edges, longer[i]) {
      if i < n - 1 {
        assert path[i + 1] in Neighbours(edges, path[i]);
      }
    }
  }

  // The edges of a path are distinct edges of the graph.
  lemma PathEdges(edges: set<EdgeId>, path: seq<VertexId>)
    requires IsSimple(edges) && IsPath(edges, path)
    ensures forall i :: 0 <= i < |path| - 1 ==> PathEdge(path, i) in edges
    ensures |path| >= 4 || path[0] != path[|path| - 1] ==>
              forall i, j :: 0 <= i < j < |path| - 1 ==> PathEdge(path, i) != PathEdge(path, j)
  {
    forall i | 0 <= i < |path| - 1 ensures PathEdge(path, i) in edges {
      NeighbourIff(edges, path[i], path[i + 1]);
    }
    if |path| >= 4 || path[0] != path[|path| - 1] {
      forall i, j | 0 <= i < j < |path| - 1 ensures PathEdge(path, i) != PathEdge(path, j) {
        assert path[i] != path[j];
        if i + 1 != j {
          assert path[i + 1] != path[j] && path[i + 1] != path[j + 1];
        }
        if (i, j + 1) != (0, |path| - 1) {
          assert path[i] != path[j + 1];
        }
      }
    }
  }

  // A closed path uses both neighbours of each of its vertices.
  lemma ClosedPathIsClosed(edges: set<EdgeId>, path: seq<VertexId>, i: int, w: VertexId) returns (j: int)
    requires IsSimple(edges) && IsTwoRegular(edges) && IsPath(edges, path) && |path| >= 4 && path[|path| - 1] == path[0]
    requires 0 <= i < |path| - 1 && w in Neighbours(edges, path[i])
    ensures 0 <= j < |path| - 1 && PathEdge(path, j) == CreateEdgeId(path[i], w)
  {
    var n := |path| - 1;
    var before := if i == 0 then n - 1 else i - 1;
    assert path[before + 1] == path[i];
    NeighbourIff(edges, path[before], path[before + 1]);
    NeighbourIff(edges, path[i], path[i + 1]);
    NeighbourIff(edges, path[i], w);
    assert path[before] != path[i + 1] by {
      if i == 0 {
        assert path[1] != path[n - 1];
      } else {
        assert path[i - 1] != path[i + 1];
      }
    }
    TwoNeighbours(edges, path[i], path[before], path[i + 1], w);
    j := if w == path[i + 1] then i else before;
  }

  // If the edges form one cycle, a closed path runs through all of them.
  lemma {:induction false} RingIsWalked(edges: set<EdgeId>, ring: seq<VertexId>, path: seq<VertexId>, k: int, m: nat) returns (i: int)
    requires IsSimple(edges) && IsCycleOf(edges, ring) && IsTwoRegular(edges)
    requires IsPath(edges, path) && |path| >= 4 && path[|path| - 1] == path[0]
    requires 0 <= k < |ring| && ring[k] == path[0] && m < |ring|
    ensures 0 <= i < |path| - 1 && path[i] == ring[Along(|ring|, k, m)]
    decreases m
  {
    hide IsCycleOf, IsPath, Neighbours, IsTwoRegular;
    RingSize(edges, ring);
    if m == 0 {
      i := 0;
    } else {
      var p := RingIsWalked(edges, ring, path, k, m - 1);
      var at := Along(|ring|, k, m - 1);
      assert Succ(|ring|, at) == Along(|ring|, k, m);
      CycleNeighbours(edges, ring, at);
      var w := ring[Along(|ring|, k, m)];
      var j := ClosedPathIsClosed(edges, path, p, w);
      i := WalkedEnd(path, j, w, path[p]);
    }
  }

  lemma RingSize(edges: set<EdgeId>, ring: seq<VertexId>)
    requires IsCycleOf(edges, ring)
    ensures |ring| >= 3
  {
  }

  lemma WalkedEnd(path: seq<VertexId>, j: int, w: VertexId, v: VertexId) returns (i: int)
    requires |path| >= 4 && path[|path| - 1] == path[0] && 0 <= j < |path| - 1
    requires PathEdge(path, j) == CreateEdgeId(v, w)
    ensures 0 <= i < |path| - 1 && path[i] == w
  {
    i := if path[j] == w then j else if j + 1 == |path| - 1 then 0 else j + 1;
  }

  lemma CycleIsWalked(edges: set<EdgeId>, path: seq<VertexId>)
    requires IsSimple(edges) && IsTwoRegular(edges) && IsPath(edges, path) && |path| >= 4 && path[|path| - 1] == path[0]
    requires IsOneCycle(edges)
    ensures forall e :: e in edges ==> exists j :: 0 <= j < |path| - 1 && PathEdge(path, j) == e
  {
    var ring :| IsCycleOf(edges, ring);
    NeighbourIff(edges, path[0], path[1]);
    var k := EndOnRing(edges, ring, path[0]);
    forall e | e in edges ensures exists j :: 0 <= j < |path| - 1 && PathEdge(path, j) == e {
      var r :| 0 <= r < |ring| && RingEdge(ring, r) == e;
      var j := RingEdgeIsWalked(edges, ring, path, k, r);
    }
  }

  lemma RingEdgeIsWalked(edges: set<EdgeId>, ring: seq<VertexId>, path: seq<VertexId>, k: int, r: int) returns (j: int)
    requires IsSimple(edges) && IsCycleOf(edges, ring) && IsTwoRegular(edges)
    requires IsPath(edges, path) && |path| >= 4 && path[|path| - 1] == path[0]
    requires 0 <= k < |ring| && ring[k] == path[0] && 0 <= r < |ring|
    ensures 0 <= j < |path| - 1 && PathEdge(path, j) == RingEdge(ring, r)
  {
    hide IsCycleOf, IsPath, Neighbours, IsTwoRegular;
    RingSize(edges, ring);
    var m := if r >= k then r - k else r - k + |ring|;
    var i := RingIsWalked(edges, ring, path, k, m);
    CycleNeighbours(edges, ring, r);
    j := ClosedPathIsClosed(edges, path, i, ring[Succ(|ring|, r)]);
  }

  // Conversely a closed path through all edges is the one cycle.
  lemma FullPathIsCycle(edges: set<EdgeId>, path: seq<VertexId>)
    requires IsSimple(edges) && IsPath(edges, path) && |path| >= 4 && path[|path| - 1] == path[0]
    requires forall e :: e in edges ==> exists j :: 0 <= j < |path| - 1 && PathEdge(path, j) == e
    ensures IsCycleOf(edges, path[..|path| - 1])
  {
    hide Neighbours, IsSimple;
    var ring := path[..|path| - 1];
    PathEdges(edges, path);
    assert Distinct(ring);
    hide IsPath, Distinct;
    forall i | 0 <= i < |ring| ensures RingEdge(ring, i) == PathEdge(path, i) {
    }
    forall e | e in edges ensures exists i :: 0 <= i < |ring| && RingEdge(ring, i) == e {
      var j :| 0 <= j < |path| - 1 && PathEdge(path, j) == e;
      assert RingEdge(ring, j) == e;
    }
  }

  // The walk itself.

  // Ordered, or the three errors that can really occur.
  datatype Walk = Ordered(edgeIds: seq<EdgeId>) | NoCoast | WrongDegree(vertexId: VertexId) | Unclosed

  ghost function EdgeSet(edges: seq<EdgeId>): set<EdgeId> {
    set e | e in edges
  }

  predicate Meeting(e: EdgeId, f: EdgeId) {
    e.lo == f.lo || e.lo == f.hi || e.hi == f.lo || e.hi == f.hi
  }

  method AddCoastalNeighbour(neighboursByVertex: map<VertexId, VertexSet>, v: VertexId, neighbour: VertexId)
    returns (updated: map<VertexId, VertexSet>)
    ensures updated == neighboursByVertex[v := (if v in neighboursByVertex then neighboursByVertex[v] else {}) + {neighbour}]
  {
    if v !in neighboursByVertex {
      updated := neighboursByVertex[v := {neighbour}];
      assert {} + {neighbour} == {neighbour};
      return;
    }
    updated := neighboursByVertex[v := neighboursByVertex[v] + {neighbour}];
  }

  lemma OneMoreEdge(edges: set<EdgeId>, e: EdgeId, v: VertexId)
    requires e.lo < e.hi
    ensures Neighbours(edges + {e}, v) == Neighbours(edges, v) + (if e.lo == v then {e.hi} else if e.hi == v then {e.lo} else {})
    ensures v in Ends(edges + {e}) <==> v in Ends(edges) || v == e.lo || v == e.hi
    ensures v !in Ends(edges) ==> Neighbours(edges, v) == {}
  {
    var more := edges + {e};
    forall w ensures w in Neighbours(more, v) <==>
                     w in Neighbours(edges, v) || (e.lo == v && w == e.hi) || (e.hi == v && w == e.lo)
    {
      if w in Neighbours(more, v) {
        var f :| f in more && Touches(f, v) && Opposite(f, v) == w;
      }
      if w in Neighbours(edges, v) {
        var f :| f in edges && Touches(f, v) && Opposite(f, v) == w;
        assert f in more;
      }
      if e.lo == v || e.hi == v {
        assert e in more && Touches(e, v);
      }
    }
    EndsGrow(edges, e, v);
  }

  lemma EndsGrow(edges: set<EdgeId>, e: EdgeId, v: VertexId)
    ensures v in Ends(edges + {e}) <==> v in Ends(edges) || v == e.lo || v == e.hi
  {
    var more := edges + {e};
    if v in Ends(more) {
      var f := EndIsEdge(more, v);
      if f != e {
        assert f in edges;
      }
    }
    if v in Ends(edges) {
      var f := EndIsEdge(edges, v);
      assert f in more;
    }
    assert e in more;
  }

  method CoastalNeighbours(coastalEdges: seq<EdgeId>) returns (neighboursByVertex: map<VertexId, VertexSet>)
    requires forall i :: 0 <= i < |coastalEdges| ==> coastalEdges[i].lo < coastalEdges[i].hi
    ensures forall v :: v in neighboursByVertex <==> v in Ends(EdgeSet(coastalEdges))
    ensures forall v :: v in neighboursByVertex ==> neighboursByVertex[v] == Neighbours(EdgeSet(coastalEdges), v)
  {
    hide Neighbours, Ends;
    neighboursByVertex := map[];
    NoEnds();
    assert EdgeSet(coastalEdges[..0]) == {};
    for i := 0 to |coastalEdges|
      invariant forall v :: v in neighboursByVertex <==> v in Ends(EdgeSet(coastalEdges[..i]))
      invariant forall v :: v in neighboursByVertex ==> neighboursByVertex[v] == Neighbours(EdgeSet(coastalEdges[..i]), v)
    {
      var edge := coastalEdges[i];
      ghost var edges := EdgeSet(coastalEdges[..i]);
      assert EdgeSet(coastalEdges[..i + 1]) == edges + {edge} by {
        assert coastalEdges[..i + 1] == coastalEdges[..i] + [edge];
      }
      forall v {
        OneMoreEdge(edges, edge, v);
      }
      neighboursByVertex := AddCoastalNeighbour(neighboursByVertex, edge.lo, edge.hi);
      neighboursByVertex := AddCoastalNeighbour(neighboursByVertex, edge.hi, edge.lo);
    }
    assert coastalEdges[..|coastalEdges|] == coastalEdges;
  }

  lemma NoEnds()
    ensures Ends({}) == {}
  {
  }

  // The first of the sorted vertices.
  method Least(vertices: VertexSet) returns (least: VertexId)
    requires vertices != {}
    ensures least in vertices && forall v :: v in vertices ==> least <= v
  {
    least := LeastOf(vertices);
  }

  lemma {:induction false} LeastExists(vertices: VertexSet)
    requires vertices != {}
    ensures exists least :: least in vertices && forall v :: v in vertices ==> least <= v
    decreases |vertices|
  {
    var x := NonEmptySet(vertices);
    var rest := vertices - {x};
    if rest == {} {
      assert forall v :: v in vertices ==> v in rest || v == x;
      assert x in vertices && forall v :: v in vertices ==> x <= v;
    } else {
      LeastExists(rest);
      var y :| y in rest && forall v :: v in rest ==> y <= v;
      var least := if x <= y then x else y;
      forall v | v in vertices ensures least <= v {
        assert v == x || v in rest;
      }
      assert least in vertices && forall v :: v in vertices ==> least <= v;
    }
  }

  function LeastOf(vertices: VertexSet): (least: VertexId)
    requires vertices != {}
    ensures least in vertices && forall v :: v in vertices ==> least <= v
  {
    LeastExists(vertices);
    var least :| least in vertices && forall v :: v in vertices ==> least <= v;
    least
  }

  // Of two neighbours, the one the walk did not come from.
  method Forward(neighbours: VertexSet, previous: VertexId) returns (next: VertexId)
    requires |neighbours| == 2 && previous in neighbours
    ensures next in neighbours && next != previous
  {
    var first := Least(neighbours);
    OneLeft(neighbours, first);
    var second := Least(neighbours - {first});
    next := if first == previous then second else first;
  }

  lemma OneLeft(vertices: VertexSet, v: VertexId)
    requires |vertices| == 2 && v in vertices
    ensures vertices - {v} != {}
  {
    assert vertices == (vertices - {v}) + {v};
    assert |vertices - {v}| == 1;
  }

  ghost predicate Listed(edgeIds: seq<EdgeId>, coastalEdges: seq<EdgeId>) {
    && Distinct(edgeIds) && |edgeIds| == |coastalEdges|
    && (forall e :: e in edgeIds <==> e in coastalEdges)
    && (forall i :: 0 <= i < |edgeIds| - 1 ==> Meeting(edgeIds[i], edgeIds[i + 1]))
    && (edgeIds != [] ==> Meeting(edgeIds[|edgeIds| - 1], edgeIds[0]))
  }

  // Missing edges, reused edges, dead ends and overruns cannot happen; the walk succeeds
  // exactly on one simple cycle, and then lists each coastal edge once, end to end.
  method DeriveOrderedCoastlineEdgeIds(coastalEdges: seq<EdgeId>) returns (walk: Walk)
    requires Distinct(coastalEdges) && forall i :: 0 <= i < |coastalEdges| ==> coastalEdges[i].lo < coastalEdges[i].hi
    ensures walk.Ordered? <==> IsOneCycle(EdgeSet(coastalEdges))
    ensures walk.Ordered? ==> Listed(walk.edgeIds, coastalEdges)
  {
    hide Neighbours, Ends, IsCycleOf, Distinct, Touches;
    ghost var edges := EdgeSet(coastalEdges);
    CyclesAreTwoRegular(edges);
    if coastalEdges == [] {
      return NoCoast;
    }
    var neighboursByVertex := CoastalNeighbours(coastalEdges);
    if v :| v in neighboursByVertex && |neighboursByVertex[v]| != 2 {
      return WrongDegree(v);
    }
    assert IsTwoRegular(edges);
    assert coastalEdges[0] in edges;
    EndsOf(edges, coastalEdges[0]);
    var start := Least(neighboursByVertex.Keys);
    var first := Least(neighboursByVertex[start]);
    var ordered := WalkFrom(coastalEdges, neighboursByVertex, start, first);
    walk := if |ordered| != |coastalEdges| then Unclosed else Ordered(ordered);
  }

  lemma CyclesAreTwoRegular(edges: set<EdgeId>)
    requires IsSimple(edges)
    ensures IsOneCycle(edges) ==> IsTwoRegular(edges) && edges != {}
  {
    if IsOneCycle(edges) {
      var ring :| IsCycleOf(edges, ring);
      CycleIsTwoRegular(edges, ring);
    }
  }

  lemma EndsOf(edges: set<EdgeId>, e: EdgeId)
    requires e in edges
    ensures e.lo in Ends(edges) && e.hi in Ends(edges)
  {
  }

  // The loop: it comes back to its start, having listed the edges of a closed path.
  method WalkFrom(coastalEdges: seq<EdgeId>, neighboursByVertex: map<VertexId, VertexSet>, start: VertexId, first: VertexId)
    returns (ordered: seq<EdgeId>)
    requires Distinct(coastalEdges) && IsSimple(EdgeSet(coastalEdges)) && IsTwoRegular(EdgeSet(coastalEdges))
    requires forall v :: v in neighboursByVertex <==> v in Ends(EdgeSet(coastalEdges))
    requires forall v :: v in neighboursByVertex ==> neighboursByVertex[v] == Neighbours(EdgeSet(coastalEdges), v)
    requires start in neighboursByVertex && first in neighboursByVertex[start]
    ensures |ordered| == |coastalEdges| <==> IsOneCycle(EdgeSet(coastalEdges))
    ensures |ordered| == |coastalEdges| ==> Listed(ordered, coastalEdges)
  {
    hide Neighbours, Ends, IsCycleOf, Distinct, Touches, IsPath, IsSimple, Listed, IsOneCycle, PathEdge;
    ghost var edges := EdgeSet(coastalEdges);
    var visited: set<EdgeId> := {};
    ordered := [];
    var previous, current := start, first;
    ghost var path := [start, first];
    NeighbourIff(edges, start, first);
    FirstPath(edges, start, first);
    while true
      invariant |path| >= 2 && IsPath(edges, path)
      invariant path[0] == start && path[|path| - 1] == current && path[|path| - 2] == previous
      invariant |path| >= 4 || current != start
      invariant |ordered| == |path| - 2 && forall i :: 0 <= i < |ordered| ==> ordered[i] == PathEdge(path, i)
      invariant visited == set e | e in ordered
      invariant |ordered| <= |coastalEdges|
      decreases |coastalEdges| - |ordered|
    {
      var edgeId := CreateEdgeId(previous, current);
      NextEdge(edges, path, ordered, edgeId);
      assert edgeId in edges && edgeId !in visited;
      visited := visited + {edgeId};
      ordered := ordered + [edgeId];
      PathFits(coastalEdges, path, ordered);
      if current == start {
        break;
      }
      CurrentIsEnd(edges, path);
      var next := Forward(neighboursByVertex[current], previous);
      StepForward(edges, path, next);
      LongerPath(path, next, ordered);
      path := path + [next];
      previous, current := current, next;
    }
    ClosedListing(coastalEdges, path, ordered);
  }

  lemma FirstPath(edges: set<EdgeId>, start: VertexId, first: VertexId)
    requires first in Neighbours(edges, start) && start != first
    ensures IsPath(edges, [start, first])
  {
  }

  lemma CurrentIsEnd(edges: set<EdgeId>, path: seq<VertexId>)
    requires IsSimple(edges) && IsTwoRegular(edges) && |path| >= 2 && IsPath(edges, path)
    ensures path[|path| - 1] in Ends(edges) && path[|path| - 2] in Neighbours(edges, path[|path| - 1])
    ensures |Neighbours(edges, path[|path| - 1])| == 2
  {
    NeighbourIff(edges, path[|path| - 2], path[|path| - 1]);
  }

  // The next edge exists and is new.
  lemma NextEdge(edges: set<EdgeId>, path: seq<VertexId>, ordered: seq<EdgeId>, edgeId: EdgeId)
    requires IsSimple(edges) && |path| >= 2 && IsPath(edges, path) && (|path| >= 4 || path[0] != path[|path| - 1])
    requires |ordered| == |path| - 2 && forall i :: 0 <= i < |ordered| ==> ordered[i] == PathEdge(path, i)
    requires edgeId == CreateEdgeId(path[|path| - 2], path[|path| - 1])
    ensures edgeId in edges && edgeId !in ordered && edgeId == PathEdge(path, |path| - 2)
  {
    PathEdges(edges, path);
    hide IsPath;
    if edgeId in ordered {
      var i :| 0 <= i < |ordered| && ordered[i] == edgeId;
      PathEdgesDiffer(edges, path, i);
    }
  }

  lemma PathEdgesDiffer(edges: set<EdgeId>, path: seq<VertexId>, i: int)
    requires IsSimple(edges) && |path| >= 2 && IsPath(edges, path) && (|path| >= 4 || path[0] != path[|path| - 1])
    requires 0 <= i < |path| - 2
    ensures PathEdge(path, i) != PathEdge(path, |path| - 2)
  {
    PathEdges(edges, path);
  }

  lemma PathFits(coastalEdges: seq<EdgeId>, path: seq<VertexId>, ordered: seq<EdgeId>)
    requires IsSimple(EdgeSet(coastalEdges)) && |path| >= 2 && IsPath(EdgeSet(coastalEdges), path)
    requires |path| >= 4 || path[0] != path[|path| - 1]
    requires |ordered| == |path| - 1 && forall i :: 0 <= i < |ordered| ==> ordered[i] == PathEdge(path, i)
    ensures Distinct(ordered) && (forall e :: e in ordered ==> e in coastalEdges) && |ordered| <= |coastalEdges|
  {
    hide IsPath;
    PathEdges(EdgeSet(coastalEdges), path);
    DistinctFitsSet(ordered, EdgeSet(coastalEdges));
    SetFitsSeq(coastalEdges);
  }

  lemma {:induction false} SetFitsSeq(edges: seq<EdgeId>)
    ensures |EdgeSet(edges)| <= |edges|
  {
    if edges == [] {
      assert EdgeSet(edges) == {};
    } else {
      SetFitsSeq(edges[1..]);
      assert EdgeSet(edges) == {edges[0]} + EdgeSet(edges[1..]);
    }
  }

  lemma LongerPath(path: seq<VertexId>, next: VertexId, ordered: seq<EdgeId>)
    requires |path| >= 2 && |ordered| == |path| - 1 && forall i :: 0 <= i < |ordered| ==> ordered[i] == PathEdge(path, i)
    requires next != path[|path| - 2]
    ensures forall i :: 0 <= i < |ordered| ==> ordered[i] == PathEdge(path + [next], i)
    ensures |path + [next]| >= 4 || next != path[0]
  {
    hide Board.CreateEdgeId;
    forall i | 0 <= i < |ordered| ensures ordered[i] == PathEdge(path + [next], i) {
      assert ordered[i] == PathEdge(path, i);
    }
  }

  lemma ClosedListing(coastalEdges: seq<EdgeId>, path: seq<VertexId>, ordered: seq<EdgeId>)
    requires Distinct(coastalEdges) && IsSimple(EdgeSet(coastalEdges)) && IsTwoRegular(EdgeSet(coastalEdges))
    requires |path| >= 4 && IsPath(EdgeSet(coastalEdges), path) && path[|path| - 1] == path[0]
    requires |ordered| == |path| - 1 && forall i :: 0 <= i < |ordered| ==> ordered[i] == PathEdge(path, i)
    ensures |ordered| == |coastalEdges| <==> IsOneCycle(EdgeSet(coastalEdges))
    ensures |ordered| == |coastalEdges| ==> Listed(ordered, coastalEdges)
  {
    hide IsPath, IsTwoRegular, IsSimple, IsCycleOf, Distinct, PathEdge, IsOneCycle;
    var edges := EdgeSet(coastalEdges);
    PathFits(coastalEdges, path, ordered);
    if IsOneCycle(edges) {
      CycleIsWalked(edges, path);
      forall e | e in coastalEdges ensures e in ordered {
        assert e in edges;
        var j :| 0 <= j < |path| - 1 && PathEdge(path, j) == e;
        assert ordered[j] == e;
      }
      SameLength(ordered, coastalEdges);
    }
    if |ordered| == |coastalEdges| {
      AllListed(ordered, coastalEdges);
      forall e | e in edges ensures exists j :: 0 <= j < |path| - 1 && PathEdge(path, j) == e {
        assert e in ordered;
        var j :| 0 <= j < |ordered| && ordered[j] == e;
      }
      FullPathIsCycle(edges, path);
      OneCycle(edges, path[..|path| - 1]);
      Consecutive(path, ordered);
    }
  }

  lemma OneCycle(edges: set<EdgeId>, ring: seq<VertexId>)
    requires IsCycleOf(edges, ring)
    ensures IsOneCycle(edges)
  {
  }

  lemma SameLength(ordered: seq<EdgeId>, coastalEdges: seq<EdgeId>)
    requires Distinct(ordered) && Distinct(coastalEdges) && forall e :: e in ordered <==> e in coastalEdges
    ensures |ordered| == |coastalEdges|
  {
    DistinctFitsSet(ordered, EdgeSet(coastalEdges));
    SetFitsSeq(coastalEdges);
    DistinctFitsSet(coastalEdges, EdgeSet(ordered));
    SetFitsSeq(ordered);
  }

  lemma AllListed(ordered: seq<EdgeId>, coastalEdges: seq<EdgeId>)
    requires Distinct(ordered) && Distinct(coastalEdges) && |ordered| == |coastalEdges|
    requires forall e :: e in ordered ==> e in coastalEdges
    ensures forall e :: e in coastalEdges ==> e in ordered
  {
    forall e | e in coastalEdges ensures e in ordered {
      if e !in ordered {
        DistinctFitsSet(ordered, EdgeSet(coastalEdges) - {e});
        SetFitsSeq(coastalEdges);
      }
    }
  }

  lemma Consecutive(path: seq<VertexId>, ordered: seq<EdgeId>)
    requires |path| >= 4 && path[|path| - 1] == path[0]
    requires |ordered| == |path| - 1 && forall i :: 0 <= i < |ordered| ==> ordered[i] == PathEdge(path, i)
    ensures forall i :: 0 <= i < |ordered| - 1 ==> Meeting(ordered[i], ordered[i + 1])
    ensures Meeting(ordered[|ordered| - 1], ordered[0])
  {
    forall i | 0 <= i < |ordered| - 1 ensures Meeting(ordered[i], ordered[i + 1]) {
      assert ordered[i] == PathEdge(path, i) && ordered[i + 1] == PathEdge(path, i + 1);
    }
  }
}
