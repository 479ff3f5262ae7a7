// The longest-road search and its meaning: the longest trail of distinct own
// roads that no opponent's building interrupts.

module LongestRoad {
  import opened Board

  predicate IsBlockedVertex(b: BoardState, v: VertexId, p: PlayerId) {
    v in b.buildings && b.buildings[v].owner != p
  }

  function Max(x: nat, y: nat): nat {
    if x >= y then x else y
  }

  function OtherEnd(d: EdgeDefinition, v: VertexId): VertexId {
    if d.a == v then d.b else d.a
  }

  // The search as functions: the engine scores with these.

  function Unused(b: BoardState, p: PlayerId, used: set<EdgeId>): set<EdgeId> {
    RoadsOf(b, p) - used
  }

  predicate Usable(b: BoardState, p: PlayerId, used: set<EdgeId>, e: EdgeId) {
    e !in used && OwnsRoad(b, p, e) && e in b.topology.edges
  }

  function TrailLengthFrom(b: BoardState, p: PlayerId, v: VertexId, used: set<EdgeId>): nat
    decreases Unused(b, p, used), 1, 0
  {
    if IsBlockedVertex(b, v, p) || v !in b.topology.vertices then 0
    else BestContinuation(b, p, v, used, b.topology.vertices[v].edgeIds)
  }

  function BestContinuation(b: BoardState, p: PlayerId, v: VertexId, used: set<EdgeId>, es: seq<EdgeId>): nat
    decreases Unused(b, p, used), 0, |es|
  {
    if es == [] then 0
    else
      var rest := BestContinuation(b, p, v, used, es[1..]);
      var e := es[0];
      if !Usable(b, p, used, e) then rest
      else
        assert e in Unused(b, p, used) && e !in Unused(b, p, used + {e});
        Max(1 + TrailLengthFrom(b, p, OtherEnd(b.topology.edges[e], v), used + {e}), rest)
  }

  function BestStart(b: BoardState, p: PlayerId, es: seq<EdgeId>): nat {
    if es == [] then 0
    else
      var rest := BestStart(b, p, es[1..]);
      var e := es[0];
      if !Usable(b, p, {}, e) then rest
      else
        var d := b.topology.edges[e];
        Max(Max(1 + TrailLengthFrom(b, p, d.a, {e}), 1 + TrailLengthFrom(b, p, d.b, {e})), rest)
  }

  function LongestRoadLength(b: BoardState, p: PlayerId): nat {
    BestStart(b, p, b.topology.edgeOrder)
  }

  // The search as it is written, with its loops.

  method SearchTrailLengthFrom(b: BoardState, p: PlayerId, v: VertexId, used: set<EdgeId>) returns (longest: nat)
    ensures longest == TrailLengthFrom(b, p, v, used)
    decreases Unused(b, p, used)
  {
    if IsBlockedVertex(b, v, p) || v !in b.topology.vertices {
      return 0;
    }
    var incident := b.topology.vertices[v].edgeIds;
    longest := 0;
    for i := 0 to |incident|
      invariant Max(longest, BestContinuation(b, p, v, used, incident[i..])) == TrailLengthFrom(b, p, v, used)
    {
      var e := incident[i];
      assert incident[i..][1..] == incident[i + 1..];
      if Usable(b, p, used, e) {
        assert e in Unused(b, p, used) && e !in Unused(b, p, used + {e});
        var rest := SearchTrailLengthFrom(b, p, OtherEnd(b.topology.edges[e], v), used + {e});
        longest := Max(longest, 1 + rest);
      }
    }
  }

  method DeriveLongestRoadLength(b: BoardState, p: PlayerId) returns (longest: nat)
    ensures longest == LongestRoadLength(b, p)
  {
    var es := b.topology.edgeOrder;
    longest := 0;
    for i := 0 to |es|
      invariant Max(longest, BestStart(b, p, es[i..])) == LongestRoadLength(b, p)
    {
      var e := es[i];
      assert es[i..][1..] == es[i + 1..];
      if Usable(b, p, {}, e) {
        var d := b.topology.edges[e];
        var fromA := SearchTrailLengthFrom(b, p, d.a, {e});
        longest := Max(longest, 1 + fromA);
        var fromB := SearchTrailLengthFrom(b, p, d.b, {e});
        longest := Max(longest, 1 + fromB);
      }
    }
  }

  // What the search is for.

  predicate Joins(b: BoardState, e: EdgeId, u: VertexId, w: VertexId) {
    && e in b.topology.edges
    && ((b.topology.edges[e].a == u && b.topology.edges[e].b == w)
        || (b.topology.edges[e].a == w && b.topology.edges[e].b == u))
  }

  // A walk es[0], es[1], ... over pairwise distinct roads of p through the vertices vs[0],
  // vs[1], ...
  ghost predicate IsWalk(b: BoardState, p: PlayerId, vs: seq<VertexId>, es: seq<EdgeId>) {
    && |vs| == |es| + 1
    && (forall i :: 0 <= i < |es| ==> es[i] in b.roads && b.roads[es[i]] == p && Joins(b, es[i], vs[i], vs[i + 1]))
    && Distinct(es)
  }

  // A walk counts unless it passes a building of another player.
  ghost predicate IsTrail(b: BoardState, p: PlayerId, vs: seq<VertexId>, es: seq<EdgeId>) {
    && IsWalk(b, p, vs, es)
    && (forall i :: 1 <= i < |es| && vs[i] in b.buildings ==> b.buildings[vs[i]].owner == p)
  }

  // A trail that continues from an inner vertex v without reusing `used`.
  ghost predicate IsContinuation(
    b: BoardState, p: PlayerId, v: VertexId, used: set<EdgeId>, vs: seq<VertexId>, es: seq<EdgeId>)
  {
    && IsTrail(b, p, vs, es) && vs[0] == v
    && (|es| > 0 && v in b.buildings ==> b.buildings[v].owner == p)
    && (forall i :: 0 <= i < |es| ==> es[i] !in used)
  }

  ghost predicate IsLongestTrailLength(b: BoardState, p: PlayerId, n: nat) {
    && (n > 0 ==> exists vs, es :: IsTrail(b, p, vs, es) && |es| == n)
    && (forall vs, es :: IsTrail(b, p, vs, es) ==> |es| <= n)
  }

  // Soundness: the search never reports more than some trail has.

  lemma PrependEdge(b: BoardState, p: PlayerId, v: VertexId, e: EdgeId,
                    w: VertexId, used: set<EdgeId>, vs: seq<VertexId>, es: seq<EdgeId>)
    requires OwnsRoad(b, p, e) && Joins(b, e, v, w)
    requires IsContinuation(b, p, w, used + {e}, vs, es)
    ensures IsTrail(b, p, [v] + vs, [e] + es)
    ensures forall i :: 0 <= i < |es| + 1 && e !in used ==> ([e] + es)[i] !in used
  {
    var vs', es' := [v] + vs, [e] + es;
    forall i | 0 <= i < |es'|
      ensures es'[i] in b.roads && b.roads[es'[i]] == p && Joins(b, es'[i], vs'[i], vs'[i + 1])
      ensures i > 0 && vs'[i] in b.buildings ==> b.buildings[vs'[i]].owner == p
    {
      if i > 0 {
        assert es'[i] == es[i - 1] && vs'[i] == vs[i - 1] && vs'[i + 1] == vs[i];
      }
    }
  }

  lemma {:induction false} ContinuationExists(b: BoardState, p: PlayerId, v: VertexId, used: set<EdgeId>)
    returns (vs: seq<VertexId>, es: seq<EdgeId>)
    requires ValidTopology(b.topology)
    ensures IsContinuation(b, p, v, used, vs, es)
    ensures |es| == TrailLengthFrom(b, p, v, used)
    decreases Unused(b, p, used), 1, 0
  {
    vs, es := [v], [];
    if !IsBlockedVertex(b, v, p) && v in b.topology.vertices {
      vs, es := BestContinuationExists(b, p, v, used, b.topology.vertices[v].edgeIds);
    }
  }

  lemma {:induction false} BestContinuationExists(
    b: BoardState, p: PlayerId, v: VertexId, used: set<EdgeId>, incident: seq<EdgeId>)
    returns (vs: seq<VertexId>, es: seq<EdgeId>)
    requires ValidTopology(b.topology)
    requires v in b.topology.vertices && (v in b.buildings ==> b.buildings[v].owner == p)
    requires forall e :: e in incident ==> e in b.topology.vertices[v].edgeIds
    ensures IsContinuation(b, p, v, used, vs, es)
    ensures |es| == BestContinuation(b, p, v, used, incident)
    decreases Unused(b, p, used), 0, |incident|
  {
    vs, es := [v], [];
    if incident != [] {
      vs, es := BestContinuationExists(b, p, v, used, incident[1..]);
      var e := incident[0];
      if Usable(b, p, used, e) {
        assert e in Unused(b, p, used) && e !in Unused(b, p, used + {e});
        assert ValidVertex(b.topology, v);
        var w := OtherEnd(b.topology.edges[e], v);
        var vs', es' := ContinuationExists(b, p, w, used + {e});
        PrependEdge(b, p, v, e, w, used, vs', es');
        if 1 + |es'| > |es| {
          vs, es := [v] + vs', [e] + es';
        }
      }
    }
  }

  // A trail's first road, then a continuation from the far end of that road.
  lemma TrailFromFirstEdge(b: BoardState, p: PlayerId, e: EdgeId, v: VertexId, w: VertexId)
    returns (vs: seq<VertexId>, es: seq<EdgeId>)
    requires ValidTopology(b.topology)
    requires Usable(b, p, {}, e) && Joins(b, e, v, w)
    ensures IsTrail(b, p, vs, es) && |es| == 1 + TrailLengthFrom(b, p, w, {e})
  {
    var vs', es' := ContinuationExists(b, p, w, {e});
    assert {} + {e} == {e};
    PrependEdge(b, p, v, e, w, {}, vs', es');
    vs, es := [v] + vs', [e] + es';
  }

  lemma {:induction false} BestStartSound(b: BoardState, p: PlayerId, starts: seq<EdgeId>)
    requires ValidTopology(b.topology)
    ensures BestStart(b, p, starts) > 0 ==>
              exists vs, es :: IsTrail(b, p, vs, es) && |es| == BestStart(b, p, starts)
  {
    if starts != [] {
      BestStartSound(b, p, starts[1..]);
      var e := starts[0];
      if Usable(b, p, {}, e) {
        var d := b.topology.edges[e];
        var vs1, es1 := TrailFromFirstEdge(b, p, e, d.b, d.a);
        var vs2, es2 := TrailFromFirstEdge(b, p, e, d.a, d.b);
      }
    }
  }

  // Completeness: no trail is longer than what the search reports.

  lemma {:induction false} BestContinuationAtLeast(
    b: BoardState, p: PlayerId, v: VertexId, used: set<EdgeId>, incident: seq<EdgeId>, e: EdgeId)
    requires e in incident && Usable(b, p, used, e)
    ensures 1 + TrailLengthFrom(b, p, OtherEnd(b.topology.edges[e], v), used + {e})
         <= BestContinuation(b, p, v, used, incident)
  {
    if incident[0] != e {
      BestContinuationAtLeast(b, p, v, used, incident[1..], e);
    }
  }

  lemma TrailTail(b: BoardState, p: PlayerId, used: set<EdgeId>, vs: seq<VertexId>, es: seq<EdgeId>)
    requires IsTrail(b, p, vs, es) && es != []
    requires forall i :: 0 <= i < |es| ==> es[i] !in used
    ensures Usable(b, p, used, es[0]) && Joins(b, es[0], vs[0], vs[1])
    ensures IsContinuation(b, p, vs[1], used + {es[0]}, vs[1..], es[1..])
  {
    assert Joins(b, es[0], vs[0], vs[1]);
    forall i | 0 <= i < |es[1..]|
      ensures es[1..][i] in b.roads && b.roads[es[1..][i]] == p && Joins(b, es[1..][i], vs[1..][i], vs[1..][i + 1])
      ensures es[1..][i] !in used + {es[0]}
      ensures vs[1..][i] in b.buildings ==> b.buildings[vs[1..][i]].owner == p
    {
      assert es[1..][i] == es[i + 1] && vs[1..][i] == vs[i + 1] && vs[1..][i + 1] == vs[i + 2];
    }
  }

  lemma {:induction false} ContinuationBounded(
    b: BoardState, p: PlayerId, v: VertexId, used: set<EdgeId>, vs: seq<VertexId>, es: seq<EdgeId>)
    requires ValidTopology(b.topology)
    requires IsContinuation(b, p, v, used, vs, es)
    ensures |es| <= TrailLengthFrom(b, p, v, used)
    decreases |es|
  {
    if es != [] {
      TrailTail(b, p, used, vs, es);
      assert ValidEdge(b.topology, es[0]);
      ContinuationBounded(b, p, vs[1], used + {es[0]}, vs[1..], es[1..]);
      BestContinuationAtLeast(b, p, v, used, b.topology.vertices[v].edgeIds, es[0]);
    }
  }

  lemma {:induction false} BestStartAtLeast(b: BoardState, p: PlayerId, starts: seq<EdgeId>, e: EdgeId)
    requires e in starts && Usable(b, p, {}, e)
    ensures 1 + TrailLengthFrom(b, p, b.topology.edges[e].a, {e}) <= BestStart(b, p, starts)
    ensures 1 + TrailLengthFrom(b, p, b.topology.edges[e].b, {e}) <= BestStart(b, p, starts)
  {
    if starts[0] != e {
      BestStartAtLeast(b, p, starts[1..], e);
    }
  }

  lemma TrailBounded(b: BoardState, p: PlayerId, vs: seq<VertexId>, es: seq<EdgeId>)
    requires ValidTopology(b.topology)
    requires IsTrail(b, p, vs, es)
    ensures |es| <= LongestRoadLength(b, p)
  {
    if es != [] {
      TrailTail(b, p, {}, vs, es);
      assert {} + {es[0]} == {es[0]};
      ContinuationBounded(b, p, vs[1], {es[0]}, vs[1..], es[1..]);
      BestStartAtLeast(b, p, b.topology.edgeOrder, es[0]);
    }
  }

  // The search computes exactly the longest trail.
  lemma SearchIsExact(b: BoardState, p: PlayerId)
    requires ValidTopology(b.topology)
    ensures IsLongestTrailLength(b, p, LongestRoadLength(b, p))
  {
    BestStartSound(b, p, b.topology.edgeOrder);
    forall vs, es | IsTrail(b, p, vs, es) ensures |es| <= LongestRoadLength(b, p) {
      TrailBounded(b, p, vs, es);
    }
  }

  // How builds move the length.

  // Whatever keeps every trail of p a trail cannot shorten p's longest road.
  lemma NeverShorter(b: BoardState, b': BoardState, p: PlayerId)
    requires ValidTopology(b.topology) && b'.topology == b.topology
    requires forall e :: e in b.roads && b.roads[e] == p ==> e in b'.roads && b'.roads[e] == p
    requires forall v :: v in b'.buildings && b'.buildings[v].owner != p ==> v in b.buildings && b.buildings[v].owner != p
    ensures LongestRoadLength(b, p) <= LongestRoadLength(b', p)
  {
    SearchIsExact(b, p);
    if LongestRoadLength(b, p) > 0 {
      var vs, es :| IsTrail(b, p, vs, es) && |es| == LongestRoadLength(b, p);
      forall i | 0 <= i < |es| ensures es[i] in b'.roads && b'.roads[es[i]] == p && Joins(b', es[i], vs[i], vs[i + 1]) {
        assert Joins(b, es[i], vs[i], vs[i + 1]);
      }
      forall i | 1 <= i < |es| && vs[i] in b'.buildings ensures b'.buildings[vs[i]].owner == p {
        var v := vs[i];
        assert v in b.buildings ==> b.buildings[v].owner == p;
      }
      TrailBounded(b', p, vs, es);
    }
  }

  // Building a road: never shorter for the builder, no change for anyone else.
  lemma RoadBuiltEffect(b: BoardState, builder: PlayerId, e: EdgeId, p: PlayerId)
    requires ValidTopology(b.topology) && e !in b.roads
    ensures p == builder ==> LongestRoadLength(b, p) <= LongestRoadLength(b.(roads := b.roads[e := builder]), p)
    ensures p != builder ==> LongestRoadLength(b, p) == LongestRoadLength(b.(roads := b.roads[e := builder]), p)
  {
    var b' := b.(roads := b.roads[e := builder]);
    NeverShorter(b, b', p);
    if p != builder {
      NeverShorter(b', b, p);
    }
  }

  // Building a settlement: never longer for an opponent, no change for the builder.
  lemma SettlementBuiltEffect(b: BoardState, builder: PlayerId, v: VertexId, p: PlayerId)
    requires ValidTopology(b.topology) && v !in b.buildings
    ensures p == builder ==>
              LongestRoadLength(b, p) == LongestRoadLength(b.(buildings := b.buildings[v := Building(Settlement, builder)]), p)
    ensures p != builder ==>
              LongestRoadLength(b, p) >= LongestRoadLength(b.(buildings := b.buildings[v := Building(Settlement, builder)]), p)
  {
    var b' := b.(buildings := b.buildings[v := Building(Settlement, builder)]);
    NeverShorter(b', b, p);
    if p == builder {
      NeverShorter(b, b', p);
    }
  }

  // Which of the other players holds a building makes no difference to p.
  lemma OpponentsAreAlike(b: BoardState, v: VertexId, building: Building, p: PlayerId)
    requires ValidTopology(b.topology) && v in b.buildings
    requires b.buildings[v].owner != p && building.owner != p
    ensures LongestRoadLength(b.(buildings := b.buildings[v := building]), p) == LongestRoadLength(b, p)
  {
    var b' := b.(buildings := b.buildings[v := building]);
    NeverShorter(b, b', p);
    NeverShorter(b', b, p);
  }

  // A walk past a building of another player never counts: p's length is that of some walk past
  // none, and whatever walk is longer passes one.
  lemma InterruptedNeverCounts(b: BoardState, p: PlayerId, vs: seq<VertexId>, es: seq<EdgeId>)
    requires ValidTopology(b.topology) && IsWalk(b, p, vs, es) && |es| > LongestRoadLength(b, p)
    ensures exists i :: 1 <= i < |es| && vs[i] in b.buildings && b.buildings[vs[i]].owner != p
  {
    if forall i :: 1 <= i < |es| && vs[i] in b.buildings ==> b.buildings[vs[i]].owner == p {
      TrailBounded(b, p, vs, es);
    }
  }

  // Upgrading to a city changes nobody's longest road.
  lemma CityUpgradeEffect(b: BoardState, v: VertexId, p: PlayerId)
    requires ValidTopology(b.topology) && v in b.buildings
    ensures LongestRoadLength(b, p)
         == LongestRoadLength(b.(buildings := b.buildings[v := b.buildings[v].(kind := City)]), p)
  {
    var b' := b.(buildings := b.buildings[v := b.buildings[v].(kind := City)]);
    NeverShorter(b, b', p);
    NeverShorter(b', b, p);
  }

  // A longest road never counts more roads than the player owns.
  lemma {:induction false} DistinctFitsSet<T>(s: seq<T>, all: set<T>)
    requires Distinct(s) && forall x :: x in s ==> x in all
    ensures |s| <= |all|
  {
    if s != [] {
      forall x | x in s[1..] ensures x in all - {s[0]} {
        var i :| 0 <= i < |s[1..]| && s[1..][i] == x;
        assert s[i + 1] == x;
      }
      DistinctFitsSet(s[1..], all - {s[0]});
    }
  }

  lemma AtMostRoadsOwned(b: BoardState, p: PlayerId)
    requires ValidTopology(b.topology)
    ensures LongestRoadLength(b, p) <= |RoadsOf(b, p)|
  {
    SearchIsExact(b, p);
    if LongestRoadLength(b, p) > 0 {
      var vs, es :| IsTrail(b, p, vs, es) && |es| == LongestRoadLength(b, p);
      forall x | x in es ensures x in RoadsOf(b, p) {
        var i :| 0 <= i < |es| && es[i] == x;
        assert OwnsRoad(b, p, es[i]);
      }
      DistinctFitsSet(es, RoadsOf(b, p));
    }
  }
}
