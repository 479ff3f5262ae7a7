// The tile-by-tile production algorithm, proved to pay exactly what the shortage rule says.

module ProductionLoop {
  import opened Board
  import opened Bags
  import opened GameModel
  import opened Rules
  import opened Assertions
  import opened Engine
  import opened Production
  import opened Harvest

  datatype Candidate = Candidate(player: PlayerId, tile: TileId, resource: Resource, quantity: nat)

  // Candidates.

  function TileCandidates(b: BoardState, tile: TileId, resource: Resource, order: seq<PlayerId>): seq<Candidate>
    requires tile in b.topology.tiles
  {
    if order == [] then []
    else
      var quantity := TileYield(b, b.topology.tiles[tile].vertexIds, order[0]);
      (if quantity > 0 then [Candidate(order[0], tile, resource, quantity)] else [])
      + TileCandidates(b, tile, resource, order[1..])
  }

  // Every tile is known and yields a resource.
  predicate Yields(b: BoardState, tile: TileId) {
    tile in b.topology.tiles && tile in b.tileContents && TerrainResource(b.tileContents[tile].terrain).Some?
  }

  function AllCandidates(b: BoardState, tiles: seq<TileId>, order: seq<PlayerId>): seq<Candidate>
    requires forall i :: 0 <= i < |tiles| ==> Yields(b, tiles[i])
  {
    if tiles == [] then []
    else
      assert Yields(b, tiles[0]);
      TileCandidates(b, tiles[0], TerrainResource(b.tileContents[tiles[0]].terrain).value, order)
      + AllCandidates(b, tiles[1..], order)
  }

  // How much a tile's vertices owe each player, counted building by building.
  method CountYields(b: BoardState, players: map<PlayerId, PlayerState>, vertexIds: seq<VertexId>)
    returns (quantityByPlayer: map<PlayerId, nat>)
    requires forall v :: v in b.buildings ==> b.buildings[v].owner in players
    ensures forall p :: (if p in quantityByPlayer then quantityByPlayer[p] else 0) == TileYield(b, vertexIds, p)
  {
    quantityByPlayer := map[];
    for i := 0 to |vertexIds|
      invariant forall p ::
        (if p in quantityByPlayer then quantityByPlayer[p] else 0) + TileYield(b, vertexIds[i..], p) == TileYield(b, vertexIds, p)
    {
      var v := vertexIds[i];
      assert vertexIds[i..][1..] == vertexIds[i + 1..];
      ghost var before := quantityByPlayer;
      if v in b.buildings {
        var owner := b.buildings[v].owner;
        assert owner in players;
        var quantity := if b.buildings[v].kind == Settlement then 1 else 2;
        quantityByPlayer := quantityByPlayer[owner := (if owner in quantityByPlayer then quantityByPlayer[owner] else 0) + quantity];
      }
      forall p
        ensures (if p in quantityByPlayer then quantityByPlayer[p] else 0) + TileYield(b, vertexIds[i + 1..], p)
             == TileYield(b, vertexIds, p)
      {
        assert TileYield(b, vertexIds[i..], p) == BuildingYield(b, v, p) + TileYield(b, vertexIds[i + 1..], p);
      }
    }
  }

  lemma TileCandidatesUnfold(b: BoardState, tile: TileId, resource: Resource, order: seq<PlayerId>)
    requires tile in b.topology.tiles
    ensures order == [] ==> TileCandidates(b, tile, resource, order) == []
    ensures order != [] ==>
              var quantity := TileYield(b, b.topology.tiles[tile].vertexIds, order[0]);
              TileCandidates(b, tile, resource, order)
              == (if quantity > 0 then [Candidate(order[0], tile, resource, quantity)] else [])
                 + TileCandidates(b, tile, resource, order[1..])
  {
  }

  // One tile's candidates, in player order.
  method AppendCandidates(
    b: BoardState, players: map<PlayerId, PlayerState>, order: seq<PlayerId>, tile: TileId, resource: Resource, before: seq<Candidate>)
    returns (candidates: seq<Candidate>)
    requires forall v :: v in b.buildings ==> b.buildings[v].owner in players
    requires tile in b.topology.tiles
    ensures candidates == before + TileCandidates(b, tile, resource, order)
  {
    hide TileCandidates, TileYield;
    var vertexIds := b.topology.tiles[tile].vertexIds;
    var quantityByPlayer := CountYields(b, players, vertexIds);
    candidates := before;
    assert order[0..] == order;
    for j := 0 to |order|
      invariant candidates + TileCandidates(b, tile, resource, order[j..]) == before + TileCandidates(b, tile, resource, order)
    {
      assert order[j..][1..] == order[j + 1..];
      TileCandidatesUnfold(b, tile, resource, order[j..]);
      var p := order[j];
      var quantity := if p in quantityByPlayer then quantityByPlayer[p] else 0;
      if quantity > 0 {
        candidates := candidates + [Candidate(p, tile, resource, quantity)];
      }
    }
    TileCandidatesUnfold(b, tile, resource, order[|order|..]);
  }

  lemma AllCandidatesUnfold(b: BoardState, tiles: seq<TileId>, order: seq<PlayerId>)
    requires forall i :: 0 <= i < |tiles| ==> Yields(b, tiles[i])
    ensures tiles == [] ==> AllCandidates(b, tiles, order) == []
    ensures tiles != [] ==>
              && Yields(b, tiles[0])
              && AllCandidates(b, tiles, order)
                 == TileCandidates(b, tiles[0], TerrainResource(b.tileContents[tiles[0]].terrain).value, order)
                    + AllCandidates(b, tiles[1..], order)
  {
  }

  method CollectCandidates(b: BoardState, players: map<PlayerId, PlayerState>, order: seq<PlayerId>, tiles: seq<TileId>)
    returns (candidates: seq<Candidate>)
    requires forall v :: v in b.buildings ==> b.buildings[v].owner in players
    requires forall i :: 0 <= i < |tiles| ==> Yields(b, tiles[i])
    ensures candidates == AllCandidates(b, tiles, order)
  {
    hide AllCandidates, TileCandidates;
    candidates := [];
    assert tiles[0..] == tiles;
    for i := 0 to |tiles|
      invariant candidates + AllCandidates(b, tiles[i..], order) == AllCandidates(b, tiles, order)
    {
      var tile := tiles[i];
      assert tiles[i..][1..] == tiles[i + 1..];
      assert Yields(b, tile);
      AllCandidatesUnfold(b, tiles[i..], order);
      var resource := TerrainResource(b.tileContents[tile].terrain).value;
      candidates := AppendCandidates(b, players, order, tile, resource, candidates);
    }
    AllCandidatesUnfold(b, tiles[|tiles|..], order);
  }

  // Granting: how much of each candidate the bank pays.

  // What all candidates ask of one resource.
  function Quantity(candidates: seq<Candidate>, r: Resource): nat {
    if candidates == [] then 0
    else
      var last := candidates[|candidates| - 1];
      Quantity(candidates[..|candidates| - 1], r) + (if last.resource == r then last.quantity else 0)
  }

  predicate Claims(candidates: seq<Candidate>, p: PlayerId, r: Resource) {
    exists i :: 0 <= i < |candidates| && candidates[i].player == p && candidates[i].resource == r
  }

  function Entitled(candidates: seq<Candidate>, order: seq<PlayerId>, r: Resource): seq<PlayerId> {
    if order == [] then []
    else (if Claims(candidates, order[0], r) then [order[0]] else []) + Entitled(candidates, order[1..], r)
  }

  function Remaining(available: int, asked: int): int {
    if asked < available then available - asked else 0
  }

  function GrantFor(candidates: seq<Candidate>, order: seq<PlayerId>, bank: Bag, i: nat): int
    requires i < |candidates|
  {
    var r := candidates[i].resource;
    if Quantity(candidates, r) <= bank.Get(r) then candidates[i].quantity
    else if |Entitled(candidates, order, r)| > 1 then 0
    else
      var remaining := Remaining(bank.Get(r), Quantity(candidates[..i], r));
      if candidates[i].quantity < remaining then candidates[i].quantity else remaining
  }

  function Granted(granted: map<nat, int>, i: nat): int {
    if i in granted then granted[i] else 0
  }

  // One resource's grants; candidates are told apart by their index.
  method GrantResource(candidates: seq<Candidate>, order: seq<PlayerId>, bank: Bag, r: Resource, before: map<nat, int>)
    returns (granted: map<nat, int>)
    requires bank.Complete()
    requires forall i: nat :: i < |candidates| && candidates[i].resource == r ==> i !in before
    ensures forall i: nat :: i < |candidates| ==>
              Granted(granted, i) == if candidates[i].resource == r then GrantFor(candidates, order, bank, i) else Granted(before, i)
    ensures forall i: nat :: i < |candidates| && candidates[i].resource != r ==> (i in granted <==> i in before)
  {
    hide Entitled, Claims, Quantity, GrantFor, Remaining, Bag.Get;
    granted := before;
    var totalDemand := SumQuantity(candidates, r);
    QuantityPositive(candidates, r);
    GrantCases(candidates, order, bank, r);
    if totalDemand == 0 {
      return;
    }
    var available := bank.Get(r);
    if available >= totalDemand {
      for i := 0 to |candidates|
        invariant forall k: nat :: k < |candidates| ==>
                    Granted(granted, k) == if candidates[k].resource == r && k < i then candidates[k].quantity else Granted(before, k)
        invariant forall k: nat :: k < |candidates| && candidates[k].resource != r ==> (k in granted <==> k in before)
      {
        if candidates[i].resource == r {
          granted := granted[i := candidates[i].quantity];
        }
      }
      return;
    }
    if |Entitled(candidates, order, r)| > 1 {
      return;
    }
    var remaining := available;
    for i := 0 to |candidates|
      invariant remaining == Remaining(available, Quantity(candidates[..i], r))
      invariant forall k: nat :: k < |candidates| ==>
                  Granted(granted, k) == if candidates[k].resource == r && k < i then GrantFor(candidates, order, bank, k)
                                         else Granted(before, k)
      invariant forall k: nat :: k < |candidates| && candidates[k].resource != r ==> (k in granted <==> k in before)
    {
      RemainingStep(candidates, order, bank, i, r);
      if candidates[i].resource == r {
        var share := if candidates[i].quantity < remaining then candidates[i].quantity else remaining;
        if share > 0 {
          granted := granted[i := share];
        }
        remaining := remaining - share;
      }
    }
  }

  lemma GrantCases(candidates: seq<Candidate>, order: seq<PlayerId>, bank: Bag, r: Resource)
    requires bank.Complete()
    ensures 0 <= bank.Get(r) == Remaining(bank.Get(r), Quantity(candidates[..0], r))
    ensures Quantity(candidates, r) <= bank.Get(r) ==>
              forall i: nat :: i < |candidates| && candidates[i].resource == r ==>
                GrantFor(candidates, order, bank, i) == candidates[i].quantity
    ensures Quantity(candidates, r) > bank.Get(r) && |Entitled(candidates, order, r)| > 1 ==>
              forall i: nat :: i < |candidates| && candidates[i].resource == r ==> GrantFor(candidates, order, bank, i) == 0
  {
    hide Entitled;
  }

  // A sole claimant's next share, and what the bank has left for that claimant.
  lemma RemainingStep(candidates: seq<Candidate>, order: seq<PlayerId>, bank: Bag, i: nat, r: Resource)
    requires i < |candidates| && bank.Complete()
    requires Quantity(candidates, r) > bank.Get(r) && |Entitled(candidates, order, r)| <= 1
    ensures var remaining := Remaining(bank.Get(r), Quantity(candidates[..i], r));
            var share := if candidates[i].quantity < remaining then candidates[i].quantity else remaining;
            && share >= 0
            && (candidates[i].resource == r ==> GrantFor(candidates, order, bank, i) == share)
            && Remaining(bank.Get(r), Quantity(candidates[..i + 1], r))
               == (if candidates[i].resource == r then remaining - share else remaining)
  {
    hide Entitled, Quantity;
    QuantityStep(candidates, i, r);
  }

  lemma QuantityStep(candidates: seq<Candidate>, i: nat, r: Resource)
    requires i < |candidates|
    ensures Quantity(candidates[..i + 1], r)
         == Quantity(candidates[..i], r) + (if candidates[i].resource == r then candidates[i].quantity else 0)
  {
    assert candidates[..i + 1][..i] == candidates[..i];
  }

  lemma {:induction false} QuantityPositive(candidates: seq<Candidate>, r: Resource)
    ensures forall i :: 0 <= i < |candidates| && candidates[i].resource == r ==> candidates[i].quantity <= Quantity(candidates, r)
  {
    if candidates != [] {
      QuantityPositive(candidates[..|candidates| - 1], r);
    }
  }

  method SumQuantity(candidates: seq<Candidate>, r: Resource) returns (sum: nat)
    ensures sum == Quantity(candidates, r)
  {
    sum := 0;
    for i := 0 to |candidates|
      invariant sum == Quantity(candidates[..i], r)
    {
      QuantityStep(candidates, i, r);
      if candidates[i].resource == r {
        sum := sum + candidates[i].quantity;
      }
    }
    assert candidates[..|candidates|] == candidates;
  }

  // What the first n candidates are paid, to one player and in all.

  function PaidTo(candidates: seq<Candidate>, order: seq<PlayerId>, bank: Bag, n: nat, p: PlayerId, r: Resource): int
    requires n <= |candidates|
  {
    if n == 0 then 0
    else
      PaidTo(candidates, order, bank, n - 1, p, r)
      + (if candidates[n - 1].player == p && candidates[n - 1].resource == r then GrantFor(candidates, order, bank, n - 1) else 0)
  }

  function PaidAll(candidates: seq<Candidate>, order: seq<PlayerId>, bank: Bag, n: nat, r: Resource): int
    requires n <= |candidates|
  {
    if n == 0 then 0
    else
      PaidAll(candidates, order, bank, n - 1, r)
      + (if candidates[n - 1].resource == r then GrantFor(candidates, order, bank, n - 1) else 0)
  }

  function QuantityOf(candidates: seq<Candidate>, p: PlayerId, r: Resource): nat {
    if candidates == [] then 0
    else
      var last := candidates[|candidates| - 1];
      QuantityOf(candidates[..|candidates| - 1], p, r) + (if last.player == p && last.resource == r then last.quantity else 0)
  }

  lemma QuantityOfStep(candidates: seq<Candidate>, i: nat, p: PlayerId, r: Resource)
    requires i < |candidates|
    ensures QuantityOf(candidates[..i + 1], p, r)
         == QuantityOf(candidates[..i], p, r)
            + (if candidates[i].player == p && candidates[i].resource == r then candidates[i].quantity else 0)
  {
    assert candidates[..i + 1][..i] == candidates[..i];
  }

  // The bank pays all of the demand, nothing, or all it has: never more than it has.
  lemma {:induction false} PaidAllIs(candidates: seq<Candidate>, order: seq<PlayerId>, bank: Bag, n: nat, r: Resource)
    requires n <= |candidates| && bank.Complete()
    ensures Quantity(candidates, r) <= bank.Get(r) ==> PaidAll(candidates, order, bank, n, r) == Quantity(candidates[..n], r)
    ensures Quantity(candidates, r) > bank.Get(r) && |Entitled(candidates, order, r)| > 1 ==> PaidAll(candidates, order, bank, n, r) == 0
    ensures Quantity(candidates, r) > bank.Get(r) && |Entitled(candidates, order, r)| <= 1 ==>
              PaidAll(candidates, order, bank, n, r) == bank.Get(r) - Remaining(bank.Get(r), Quantity(candidates[..n], r))
  {
    hide Entitled;
    if n > 0 {
      PaidAllIs(candidates, order, bank, n - 1, r);
      QuantityStep(candidates, n - 1, r);
    }
  }

  lemma {:induction false} QuantityGrows(candidates: seq<Candidate>, n: nat, r: Resource)
    requires n <= |candidates|
    ensures Quantity(candidates[..n], r) <= Quantity(candidates, r)
    decreases |candidates| - n
  {
    if n == |candidates| {
      assert candidates[..n] == candidates;
    } else {
      QuantityStep(candidates, n, r);
      QuantityGrows(candidates, n + 1, r);
    }
  }

  lemma PaidAllFits(candidates: seq<Candidate>, order: seq<PlayerId>, bank: Bag, n: nat, r: Resource)
    requires n <= |candidates| && bank.Complete()
    ensures 0 <= PaidAll(candidates, order, bank, n, r) <= bank.Get(r)
  {
    hide PaidAll, Quantity, Entitled;
    PaidAllIs(candidates, order, bank, n, r);
    QuantityGrows(candidates, n, r);
    assert bank.Get(r) >= 0;
  }

  // What one player is paid, by the three cases.
  lemma {:induction false} PaidToIs(candidates: seq<Candidate>, order: seq<PlayerId>, bank: Bag, n: nat, p: PlayerId, r: Resource)
    requires n <= |candidates|
    ensures Quantity(candidates, r) <= bank.Get(r) ==> PaidTo(candidates, order, bank, n, p, r) == QuantityOf(candidates[..n], p, r)
    ensures Quantity(candidates, r) > bank.Get(r) && |Entitled(candidates, order, r)| > 1 ==> PaidTo(candidates, order, bank, n, p, r) == 0
    ensures (forall i :: 0 <= i < |candidates| && candidates[i].resource == r ==> candidates[i].player == p) ==>
              PaidTo(candidates, order, bank, n, p, r) == PaidAll(candidates, order, bank, n, r)
    ensures !Claims(candidates, p, r) ==> PaidTo(candidates, order, bank, n, p, r) == 0
  {
    hide Entitled, Quantity;
    if n > 0 {
      PaidToIs(candidates, order, bank, n - 1, p, r);
      QuantityOfStep(candidates, n - 1, p, r);
    }
  }

  // The candidates' totals are the demand of the rule.

  lemma {:induction false} QuantityAppend(a: seq<Candidate>, b: seq<Candidate>, p: PlayerId, r: Resource)
    ensures Quantity(a + b, r) == Quantity(a, r) + Quantity(b, r)
    ensures QuantityOf(a + b, p, r) == QuantityOf(a, p, r) + QuantityOf(b, p, r)
  {
    if b == [] {
      assert a + b == a;
    } else {
      QuantityAppend(a, b[..|b| - 1], p, r);
      assert (a + b)[..|a + b| - 1] == a + b[..|b| - 1];
    }
  }

  function TileTotal(b: BoardState, vs: seq<VertexId>, order: seq<PlayerId>): nat {
    if order == [] then 0 else TileYield(b, vs, order[0]) + TileTotal(b, vs, order[1..])
  }

  lemma SingleQuantity(c: Candidate, p: PlayerId, r: Resource)
    ensures Quantity([c], r) == if c.resource == r then c.quantity else 0
    ensures QuantityOf([c], p, r) == if c.player == p && c.resource == r then c.quantity else 0
  {
    assert [c][..0] == [];
  }

  lemma {:induction false} TileQuantities(b: BoardState, tile: TileId, resource: Resource, order: seq<PlayerId>, p: PlayerId, r: Resource)
    requires tile in b.topology.tiles && Distinct(order)
    ensures var candidates, vs := TileCandidates(b, tile, resource, order), b.topology.tiles[tile].vertexIds;
            && Quantity(candidates, r) == (if r == resource then TileTotal(b, vs, order) else 0)
            && QuantityOf(candidates, p, r) == (if r == resource && p in order then TileYield(b, vs, p) else 0)
  {
    hide TileYield, Quantity, QuantityOf, TileCandidates;
    TileCandidatesUnfold(b, tile, resource, order);
    NoQuantity(p, r);
    if order != [] {
      var vs := b.topology.tiles[tile].vertexIds;
      TileQuantities(b, tile, resource, order[1..], p, r);
      var quantity := TileYield(b, vs, order[0]);
      if quantity > 0 {
        var one := Candidate(order[0], tile, resource, quantity);
        QuantityAppend([one], TileCandidates(b, tile, resource, order[1..]), p, r);
        SingleQuantity(one, p, r);
      } else {
        assert [] + TileCandidates(b, tile, resource, order[1..]) == TileCandidates(b, tile, resource, order[1..]);
      }
      assert p in order <==> p == order[0] || p in order[1..];
      assert order[0] !in order[1..];
    }
  }

  lemma NoQuantity(p: PlayerId, r: Resource)
    ensures Quantity([], r) == 0 && QuantityOf([], p, r) == 0
  {
  }

  lemma {:induction false} TotalDemandOneMore(b: BoardState, tiles: seq<TileId>, order: seq<PlayerId>, r: Resource)
    requires tiles != [] && Yields(b, tiles[0])
    ensures TotalDemand(b, tiles, order, r)
         == TotalDemand(b, tiles[1..], order, r)
            + (if TerrainResource(b.tileContents[tiles[0]].terrain) == Some(r)
               then TileTotal(b, b.topology.tiles[tiles[0]].vertexIds, order) else 0)
  {
    hide TileYield;
    if order != [] {
      TotalDemandOneMore(b, tiles, order[1..], r);
    }
  }

  lemma {:induction false} AllQuantities(b: BoardState, tiles: seq<TileId>, order: seq<PlayerId>, p: PlayerId, r: Resource)
    requires Distinct(order) && forall i :: 0 <= i < |tiles| ==> Yields(b, tiles[i])
    ensures Quantity(AllCandidates(b, tiles, order), r) == TotalDemand(b, tiles, order, r)
    ensures p in order ==> QuantityOf(AllCandidates(b, tiles, order), p, r) == DemandBy(b, tiles, p, r)
  {
    hide TileYield, Quantity, QuantityOf, AllCandidates, TileCandidates, TotalDemand, TileTotal, Distinct;
    AllCandidatesUnfold(b, tiles, order);
    NoQuantity(p, r);
    if tiles == [] {
      NoDemand(b, order, r);
    } else {
      var resource := TerrainResource(b.tileContents[tiles[0]].terrain).value;
      forall i | 0 <= i < |tiles[1..]| ensures Yields(b, tiles[1..][i]) {
        assert tiles[1..][i] == tiles[i + 1];
      }
      AllQuantities(b, tiles[1..], order, p, r);
      TileQuantities(b, tiles[0], resource, order, p, r);
      QuantityAppend(TileCandidates(b, tiles[0], resource, order), AllCandidates(b, tiles[1..], order), p, r);
      TotalDemandOneMore(b, tiles, order, r);
    }
  }

  lemma {:induction false} NoDemand(b: BoardState, order: seq<PlayerId>, r: Resource)
    ensures TotalDemand(b, [], order, r) == 0
  {
    if order != [] {
      NoDemand(b, order[1..], r);
    }
  }

  // Every candidate is a player in the order and asks for something.
  ghost predicate RealCandidates(candidates: seq<Candidate>, order: seq<PlayerId>) {
    forall i :: 0 <= i < |candidates| ==> candidates[i].player in order && candidates[i].quantity > 0
  }

  lemma {:induction false} TileCandidatesReal(b: BoardState, tile: TileId, resource: Resource, order: seq<PlayerId>)
    requires tile in b.topology.tiles
    ensures RealCandidates(TileCandidates(b, tile, resource, order), order)
  {
    hide TileYield;
    if order != [] {
      TileCandidatesReal(b, tile, resource, order[1..]);
      var first := order[0];
      assert first in order;
    }
  }

  lemma {:induction false} AllCandidatesReal(b: BoardState, tiles: seq<TileId>, order: seq<PlayerId>)
    requires forall i :: 0 <= i < |tiles| ==> Yields(b, tiles[i])
    ensures RealCandidates(AllCandidates(b, tiles, order), order)
  {
    hide TileCandidates;
    if tiles != [] {
      forall i | 0 <= i < |tiles[1..]| ensures Yields(b, tiles[1..][i]) {
        assert tiles[1..][i] == tiles[i + 1];
      }
      AllCandidatesReal(b, tiles[1..], order);
      TileCandidatesReal(b, tiles[0], TerrainResource(b.tileContents[tiles[0]].terrain).value, order);
    }
  }

  lemma {:induction false} ClaimsArePositive(candidates: seq<Candidate>, p: PlayerId, r: Resource)
    requires forall i :: 0 <= i < |candidates| ==> candidates[i].quantity > 0
    ensures Claims(candidates, p, r) <==> QuantityOf(candidates, p, r) > 0
  {
    if candidates != [] {
      var n := |candidates| - 1;
      var front := candidates[..n];
      ClaimsArePositive(front, p, r);
      assert Claims(front, p, r) ==> Claims(candidates, p, r) by {
        if Claims(front, p, r) {
          var i :| 0 <= i < |front| && front[i].player == p && front[i].resource == r;
          assert candidates[i] == front[i];
        }
      }
      assert Claims(candidates, p, r) ==> Claims(front, p, r) || (candidates[n].player == p && candidates[n].resource == r) by {
        if Claims(candidates, p, r) {
          var i :| 0 <= i < |candidates| && candidates[i].player == p && candidates[i].resource == r;
          assert i < n ==> front[i] == candidates[i];
        }
      }
    }
  }

  lemma {:induction false} EntitledAre(candidates: seq<Candidate>, order: seq<PlayerId>, r: Resource)
    ensures forall p :: p in Entitled(candidates, order, r) <==> p in order && Claims(candidates, p, r)
  {
    hide Claims;
    if order != [] {
      EntitledAre(candidates, order[1..], r);
    }
  }

  lemma {:induction false} EntitledCounts(
    candidates: seq<Candidate>, b: BoardState, tiles: seq<TileId>, order: seq<PlayerId>, r: Resource)
    requires forall p :: p in order ==> (Claims(candidates, p, r) <==> DemandBy(b, tiles, p, r) > 0)
    ensures |Entitled(candidates, order, r)| == EntitledCount(b, tiles, order, r)
  {
    hide Claims, DemandBy;
    if order != [] {
      var first := order[0];
      assert first in order;
      EntitledCounts(candidates, b, tiles, order[1..], r);
    }
  }

  // The grants to a player add up to the share the one-line rule gives.
  lemma PaidToIsShare(b: BoardState, tiles: seq<TileId>, order: seq<PlayerId>, bank: Bag, p: PlayerId, r: Resource)
    requires Distinct(order) && p in order && bank.Complete() && forall i :: 0 <= i < |tiles| ==> Yields(b, tiles[i])
    ensures var candidates := AllCandidates(b, tiles, order);
            PaidTo(candidates, order, bank, |candidates|, p, r) == Share(b, tiles, order, bank.Get(r), p, r)
  {
    hide AllCandidates, Distinct, PaidTo, PaidAll, Quantity, QuantityOf, Entitled, Claims, DemandBy, TotalDemand, EntitledCount,
      RealCandidates;
    var candidates := AllCandidates(b, tiles, order);
    CandidateFacts(b, tiles, order, r);
    AllQuantities(b, tiles, order, p, r);
    var n := |candidates|;
    assert candidates[..n] == candidates;
    PaidToIs(candidates, order, bank, n, p, r);
    PaidAllIs(candidates, order, bank, n, r);
    if Quantity(candidates, r) > bank.Get(r) && |Entitled(candidates, order, r)| <= 1 && DemandBy(b, tiles, p, r) > 0 {
      SoleClaimant(candidates, order, p, r);
    }
    assert bank.Get(r) >= 0;
  }

  lemma CandidateFacts(b: BoardState, tiles: seq<TileId>, order: seq<PlayerId>, r: Resource)
    requires Distinct(order) && forall i :: 0 <= i < |tiles| ==> Yields(b, tiles[i])
    ensures var candidates := AllCandidates(b, tiles, order);
            && RealCandidates(candidates, order)
            && |Entitled(candidates, order, r)| == EntitledCount(b, tiles, order, r)
            && forall p :: p in order ==> (Claims(candidates, p, r) <==> DemandBy(b, tiles, p, r) > 0)
  {
    hide AllCandidates, Distinct, QuantityOf, Entitled, Claims, DemandBy, EntitledCount, Quantity, TotalDemand;
    var candidates := AllCandidates(b, tiles, order);
    AllCandidatesReal(b, tiles, order);
    forall p | p in order ensures Claims(candidates, p, r) <==> DemandBy(b, tiles, p, r) > 0 {
      AllQuantities(b, tiles, order, p, r);
      ClaimsArePositive(candidates, p, r);
    }
    EntitledCounts(candidates, b, tiles, order, r);
  }

  lemma SoleClaimant(candidates: seq<Candidate>, order: seq<PlayerId>, p: PlayerId, r: Resource)
    requires RealCandidates(candidates, order) && p in order && Claims(candidates, p, r)
    requires |Entitled(candidates, order, r)| <= 1
    ensures forall i :: 0 <= i < |candidates| && candidates[i].resource == r ==> candidates[i].player == p
  {
    EntitledAre(candidates, order, r);
    hide Entitled;
    var entitled := Entitled(candidates, order, r);
    assert p in entitled;
    forall i | 0 <= i < |candidates| && candidates[i].resource == r ensures candidates[i].player == p {
      var q := candidates[i].player;
      assert Claims(candidates, q, r);
      assert q in entitled;
    }
  }

  function PaidBag(candidates: seq<Candidate>, order: seq<PlayerId>, bank: Bag, n: nat, p: PlayerId): Bag
    requires n <= |candidates|
  {
    Bag(PaidTo(candidates, order, bank, n, p, Lumber), PaidTo(candidates, order, bank, n, p, Brick),
        PaidTo(candidates, order, bank, n, p, Wool), PaidTo(candidates, order, bank, n, p, Grain),
        PaidTo(candidates, order, bank, n, p, Ore))
  }

  function PaidOutBag(candidates: seq<Candidate>, order: seq<PlayerId>, bank: Bag, n: nat): Bag
    requires n <= |candidates|
  {
    Bag(PaidAll(candidates, order, bank, n, Lumber), PaidAll(candidates, order, bank, n, Brick),
        PaidAll(candidates, order, bank, n, Wool), PaidAll(candidates, order, bank, n, Grain),
        PaidAll(candidates, order, bank, n, Ore))
  }

  lemma PaidBagIsShare(b: BoardState, tiles: seq<TileId>, order: seq<PlayerId>, bank: Bag, p: PlayerId)
    requires Distinct(order) && p in order && bank.Complete() && forall i :: 0 <= i < |tiles| ==> Yields(b, tiles[i])
    ensures var candidates := AllCandidates(b, tiles, order);
            PaidBag(candidates, order, bank, |candidates|, p) == ShareBag(b, tiles, order, bank, p)
  {
    hide Share, PaidTo, AllCandidates, Distinct;
    PaidToIsShare(b, tiles, order, bank, p, Lumber);
    PaidToIsShare(b, tiles, order, bank, p, Brick);
    PaidToIsShare(b, tiles, order, bank, p, Wool);
    PaidToIsShare(b, tiles, order, bank, p, Grain);
    PaidToIsShare(b, tiles, order, bank, p, Ore);
  }

  lemma PaidAllIsShares(b: BoardState, tiles: seq<TileId>, order: seq<PlayerId>, bank: Bag, r: Resource)
    requires Distinct(order) && bank.Complete() && forall i :: 0 <= i < |tiles| ==> Yields(b, tiles[i])
    ensures var candidates := AllCandidates(b, tiles, order);
            PaidAll(candidates, order, bank, |candidates|, r) == SumShare(b, tiles, order, order, bank.Get(r), r)
  {
    hide AllCandidates, Distinct, PaidAll, Quantity, QuantityOf, Entitled, Claims, DemandBy, TotalDemand, EntitledCount, SumShare,
      RealCandidates;
    var candidates := AllCandidates(b, tiles, order);
    CandidateFacts(b, tiles, order, r);
    AllQuantities(b, tiles, order, 0, r);
    assert candidates[..|candidates|] == candidates;
    PaidAllIs(candidates, order, bank, |candidates|, r);
    assert bank.Get(r) >= 0;
    PaidOut(b, tiles, order, bank.Get(r), r);
  }

  lemma PaidOutBagIsShares(b: BoardState, tiles: seq<TileId>, order: seq<PlayerId>, bank: Bag)
    requires Distinct(order) && bank.Complete() && forall i :: 0 <= i < |tiles| ==> Yields(b, tiles[i])
    ensures var candidates := AllCandidates(b, tiles, order);
            PaidOutBag(candidates, order, bank, |candidates|) == SumHands(order, Shares(b, tiles, order, bank))
  {
    hide SumShare, PaidAll, AllCandidates, SumHands, Distinct;
    PaidAllIsShares(b, tiles, order, bank, Lumber);
    PaidAllIsShares(b, tiles, order, bank, Brick);
    PaidAllIsShares(b, tiles, order, bank, Wool);
    PaidAllIsShares(b, tiles, order, bank, Grain);
    PaidAllIsShares(b, tiles, order, bank, Ore);
    SharesByResource(b, tiles, order, order, bank);
  }

  // Paying the candidates one by one.

  lemma PaidStep(candidates: seq<Candidate>, order: seq<PlayerId>, bank: Bag, n: nat, p: PlayerId)
    requires n < |candidates|
    ensures var c, g := candidates[n], GrantFor(candidates, order, bank, n);
            var before, out := PaidBag(candidates, order, bank, n, p), PaidOutBag(candidates, order, bank, n);
            && PaidBag(candidates, order, bank, n + 1, p)
               == (if c.player == p then before.Set(c.resource, before.Get(c.resource) + g) else before)
            && PaidOutBag(candidates, order, bank, n + 1) == out.Set(c.resource, out.Get(c.resource) + g)
  {
    hide GrantFor;
  }

  method PayCandidates(candidates: seq<Candidate>, players: map<PlayerId, PlayerState>, order: seq<PlayerId>, bank: Bag,
                       grantedQuantities: map<nat, int>)
    returns (playerResources: map<PlayerId, Bag>, bankResources: Bag)
    requires bank.Complete() && forall i :: 0 <= i < |candidates| ==> candidates[i].player in players
    requires forall i: nat :: i < |candidates| ==> Granted(grantedQuantities, i) == GrantFor(candidates, order, bank, i)
    ensures playerResources.Keys <= players.Keys
    ensures forall p :: p in players ==>
              (if p in playerResources then playerResources[p] else players[p].resources)
              == players[p].resources.Plus(PaidBag(candidates, order, bank, |candidates|, p))
    ensures bankResources == bank.Minus(PaidOutBag(candidates, order, bank, |candidates|))
  {
    hide *;
    playerResources, bankResources := map[], bank;
    NothingPaid(candidates, players, order, bank);
    for i := 0 to |candidates|
      invariant playerResources.Keys <= players.Keys
      invariant forall p :: p in players ==>
                  (if p in playerResources then playerResources[p] else players[p].resources)
                  == players[p].resources.Plus(PaidBag(candidates, order, bank, i, p))
      invariant bankResources == bank.Minus(PaidOutBag(candidates, order, bank, i))
    {
      var candidate := candidates[i];
      var granted := Granted(grantedQuantities, i);
      ghost var earlier := playerResources;
      var p := candidate.player;
      if granted != 0 {
        var resources := if p in playerResources then playerResources[p] else players[p].resources;
        playerResources := playerResources[p := resources.Set(candidate.resource, resources.Get(candidate.resource) + granted)];
        bankResources := bankResources.Set(candidate.resource, bankResources.Get(candidate.resource) - granted);
      }
      StepsPreserve(candidates, players, order, bank, i, earlier, playerResources, granted);
      BankStep(candidates, order, bank, i, granted);
      assert bankResources.Get(candidate.resource) >= 0;
    }
  }

  lemma NothingPaid(candidates: seq<Candidate>, players: map<PlayerId, PlayerState>, order: seq<PlayerId>, bank: Bag)
    ensures bank == bank.Minus(PaidOutBag(candidates, order, bank, 0))
    ensures forall p :: p in players ==>
              players[p].resources == players[p].resources.Plus(PaidBag(candidates, order, bank, 0, p))
  {
  }

  // The bank after paying candidate n; it never goes below zero.
  lemma BankStep(candidates: seq<Candidate>, order: seq<PlayerId>, bank: Bag, n: nat, granted: int)
    requires n < |candidates| && bank.Complete() && granted == GrantFor(candidates, order, bank, n)
    ensures var r, before, after := candidates[n].resource, bank.Minus(PaidOutBag(candidates, order, bank, n)),
                                    bank.Minus(PaidOutBag(candidates, order, bank, n + 1));
            && after == (if granted == 0 then before else before.Set(r, before.Get(r) - granted))
            && after.Get(r) >= 0
  {
    hide PaidAll, GrantFor, PaidTo, PaidBag;
    PaidStep(candidates, order, bank, n, candidates[n].player);
    PaidAllFits(candidates, order, bank, n + 1, candidates[n].resource);
  }

  lemma StepsPreserve(candidates: seq<Candidate>, players: map<PlayerId, PlayerState>, order: seq<PlayerId>, bank: Bag, i: nat,
                      earlier: map<PlayerId, Bag>, later: map<PlayerId, Bag>, granted: int)
    requires i < |candidates| && candidates[i].player in players && granted == GrantFor(candidates, order, bank, i)
    requires forall p :: p in players ==>
               (if p in earlier then earlier[p] else players[p].resources)
               == players[p].resources.Plus(PaidBag(candidates, order, bank, i, p))
    requires var c := candidates[i];
             var resources := if c.player in earlier then earlier[c.player] else players[c.player].resources;
             later == if granted == 0 then earlier
                      else earlier[c.player := resources.Set(c.resource, resources.Get(c.resource) + granted)]
    ensures forall p :: p in players ==>
              (if p in later then later[p] else players[p].resources)
              == players[p].resources.Plus(PaidBag(candidates, order, bank, i + 1, p))
  {
    hide GrantFor, PaidBag, PaidOutBag;
    forall p | p in players
      ensures (if p in later then later[p] else players[p].resources)
           == players[p].resources.Plus(PaidBag(candidates, order, bank, i + 1, p))
    {
      PaidStep(candidates, order, bank, i, p);
    }
  }

  lemma {:induction false} ProducersYield(b: BoardState, tiles: seq<TileId>, total: int)
    requires forall tile :: tile in b.tileContents && b.tileContents[tile].terrain == Desert ==> b.tileContents[tile].numberToken.None?
    ensures forall i :: 0 <= i < |ProducingTiles(b, tiles, total)| ==> Yields(b, ProducingTiles(b, tiles, total)[i])
  {
    if tiles != [] {
      ProducersYield(b, tiles[1..], total);
    }
  }

  // The whole algorithm pays every player exactly the share of the one-line rule: on a board of the
  // right shape, what is due for the corners of the harvested tiles.
  method ProduceResourcesForRoll(s: GameState, total: int) returns (players: map<PlayerId, PlayerState>, bank: Bag)
    requires ProductionInputs(s) && Distinct(s.playerOrder)
    requires forall v :: v in s.board.buildings ==> s.board.buildings[v].owner in s.players
    ensures players == ProducedPlayers(s, total)
    ensures bank == ProducedBank(s, total)
    ensures ValidTopology(s.board.topology) && OwnersKnown(s) ==>
              forall p :: p in s.playerOrder ==> players[p].resources == s.players[p].resources.Plus(DueCards(s, total, p))
  {
    hide DueCards, OwnersKnown, ValidTopology, ProducingTiles, AllCandidates, ShareBag, PaidBag, PaidOutBag, SumHands, Distinct, GrantFor;
    var tiles := ProducingTiles(s.board, s.board.topology.tileOrder, total);
    ProducersYield(s.board, s.board.topology.tileOrder, total);
    var candidates := CollectCandidates(s.board, s.players, s.playerOrder, tiles);
    var grantedQuantities: map<nat, int> := map[];
    for k := 0 to |RESOURCE_TYPES|
      invariant forall i: nat :: i < |candidates| ==>
                  if candidates[i].resource in RESOURCE_TYPES[..k]
                  then Granted(grantedQuantities, i) == GrantFor(candidates, s.playerOrder, s.bank.resources, i)
                  else i !in grantedQuantities
    {
      assert RESOURCE_TYPES[k] !in RESOURCE_TYPES[..k];
      assert RESOURCE_TYPES[..k + 1] == RESOURCE_TYPES[..k] + [RESOURCE_TYPES[k]];
      grantedQuantities := GrantResource(candidates, s.playerOrder, s.bank.resources, RESOURCE_TYPES[k], grantedQuantities);
    }
    EveryResourceListed();
    AllCandidatesReal(s.board, tiles, s.playerOrder);
    forall i | 0 <= i < |candidates| ensures candidates[i].player in s.players {
      assert candidates[i].player in s.playerOrder;
    }
    var playerResources;
    playerResources, bank := PayCandidates(candidates, s.players, s.playerOrder, s.bank.resources, grantedQuantities);
    players := map p | p in s.players ::
      if p in playerResources then s.players[p].(resources := playerResources[p]) else s.players[p];
    PaidOutBagIsShares(s.board, tiles, s.playerOrder, s.bank.resources);
    forall p | p in s.players ensures players[p] == ProducedPlayers(s, total)[p] {
      if p in s.playerOrder {
        PaidBagIsShare(s.board, tiles, s.playerOrder, s.bank.resources, p);
      } else {
        OutsidersUnpaid(candidates, s.playerOrder, s.bank.resources, |candidates|, p);
      }
    }
    if ValidTopology(s.board.topology) && OwnersKnown(s) {
      forall p | p in s.playerOrder ensures players[p].resources == s.players[p].resources.Plus(DueCards(s, total, p)) {
        SharesAreDue(s, total, p);
      }
    }
  }

  lemma EveryResourceListed()
    ensures RESOURCE_TYPES[..|RESOURCE_TYPES|] == RESOURCE_TYPES
    ensures forall r: Resource :: r in RESOURCE_TYPES
  {
    forall r: Resource ensures r in RESOURCE_TYPES {
      match r
      case Lumber => assert RESOURCE_TYPES[0] == r;
      case Brick => assert RESOURCE_TYPES[1] == r;
      case Wool => assert RESOURCE_TYPES[2] == r;
      case Grain => assert RESOURCE_TYPES[3] == r;
      case Ore => assert RESOURCE_TYPES[4] == r;
    }
  }

  lemma {:induction false} OutsidersUnpaid(candidates: seq<Candidate>, order: seq<PlayerId>, bank: Bag, n: nat, p: PlayerId)
    requires RealCandidates(candidates, order) && p !in order && n <= |candidates|
    ensures PaidBag(candidates, order, bank, n, p) == NOTHING
  {
    hide GrantFor;
    if n > 0 {
      OutsidersUnpaid(candidates, order, bank, n - 1, p);
    }
  }
}
