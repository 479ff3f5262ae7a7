// The bounded-JSON check: an explicit stack with early cut-offs decides a recursive property.

module BoundedJson {
  import opened Board

  const MAX_PACKET_BYTES := 16384
  const MAX_PACKET_DEPTH := 12
  const MAX_PACKET_NODES := 512

  // A received value: strings carry their raw and their encoded length, objects and arrays
  // their identity, whether their prototype and symbols are acceptable, and their properties.
  datatype Json =
    | Text(raw: nat, encoded: nat)
    | Number(finite: bool)
    | Constant
    | Composite(id: int, isArray: bool, plainPrototype: bool, hasSymbols: bool, fields: Fields)
    | Other

  // A property: the encoded length of its key, whether it is an enumerable data property with
  // an allowed name, whether the name is an array index, and its value.
  datatype Fields = NoFields | MoreFields(keyBytes: nat, usable: bool, isIndex: bool, value: Json, rest: Fields)

  // The property decided, by recursion.

  function Nodes(j: Json): nat {
    if j.Composite? then 1 + FieldNodes(j.fields) else 1
  }

  function FieldNodes(fields: Fields): nat {
    match fields
    case NoFields => 0
    case MoreFields(_, _, _, value, rest) => Nodes(value) + FieldNodes(rest)
  }

  function Bytes(j: Json): nat {
    match j
    case Text(_, encoded) => encoded
    case Number(_) => 24
    case Constant => 5
    case Composite(_, _, _, _, fields) => FieldBytes(fields) + 2
    case Other => 0
  }

  function FieldBytes(fields: Fields): nat {
    match fields
    case NoFields => 0
    case MoreFields(keyBytes, _, _, value, rest) => keyBytes + 2 + Bytes(value) + FieldBytes(rest)
  }

  predicate Shallow(j: Json, depth: nat) {
    depth <= MAX_PACKET_DEPTH && (j.Composite? ==> FieldsShallow(j.fields, depth + 1))
  }

  predicate FieldsShallow(fields: Fields, depth: nat) {
    match fields
    case NoFields => true
    case MoreFields(_, _, _, value, rest) => Shallow(value, depth) && FieldsShallow(rest, depth)
  }

  predicate Plain(j: Json) {
    match j
    case Text(raw, _) => raw <= MAX_PACKET_BYTES
    case Number(finite) => finite
    case Constant => true
    case Composite(_, isArray, plainPrototype, hasSymbols, fields) =>
      (isArray || plainPrototype) && !hasSymbols && FieldsPlain(fields, isArray)
    case Other => false
  }

  predicate FieldsPlain(fields: Fields, isArray: bool) {
    match fields
    case NoFields => true
    case MoreFields(_, usable, isIndex, value, rest) =>
      usable && (isArray ==> isIndex) && Plain(value) && FieldsPlain(rest, isArray)
  }

  function Ids(j: Json): multiset<int> {
    if j.Composite? then multiset{j.id} + FieldIds(j.fields) else multiset{}
  }

  function FieldIds(fields: Fields): multiset<int> {
    match fields
    case NoFields => multiset{}
    case MoreFields(_, _, _, value, rest) => Ids(value) + FieldIds(rest)
  }

  ghost predicate Unshared(ids: multiset<int>) {
    forall id :: ids[id] <= 1
  }

  // Few nodes, few bytes, shallow, plain throughout, and no object met twice.
  ghost predicate Bounded(j: Json) {
    && Nodes(j) <= MAX_PACKET_NODES && Bytes(j) <= MAX_PACKET_BYTES
    && Shallow(j, 0) && Plain(j) && Unshared(Ids(j))
  }

  // The same measures over a stack of pending values.

  datatype Entry = Entry(value: Json, depth: nat)

  function PendingNodes(pending: seq<Entry>): nat {
    if pending == [] then 0 else PendingNodes(pending[..|pending| - 1]) + Nodes(pending[|pending| - 1].value)
  }

  function PendingBytes(pending: seq<Entry>): nat {
    if pending == [] then 0 else PendingBytes(pending[..|pending| - 1]) + Bytes(pending[|pending| - 1].value)
  }

  function PendingIds(pending: seq<Entry>): multiset<int> {
    if pending == [] then multiset{} else PendingIds(pending[..|pending| - 1]) + Ids(pending[|pending| - 1].value)
  }

  predicate PendingShallow(pending: seq<Entry>) {
    pending == [] || (PendingShallow(pending[..|pending| - 1])
                      && Shallow(pending[|pending| - 1].value, pending[|pending| - 1].depth))
  }

  predicate PendingPlain(pending: seq<Entry>) {
    pending == [] || (PendingPlain(pending[..|pending| - 1]) && Plain(pending[|pending| - 1].value))
  }

  lemma PendingPush(pending: seq<Entry>, entry: Entry)
    ensures var more := pending + [entry];
            && PendingNodes(more) == PendingNodes(pending) + Nodes(entry.value)
            && PendingBytes(more) == PendingBytes(pending) + Bytes(entry.value)
            && PendingIds(more) == PendingIds(pending) + Ids(entry.value)
            && (PendingShallow(more) <==> PendingShallow(pending) && Shallow(entry.value, entry.depth))
            && (PendingPlain(more) <==> PendingPlain(pending) && Plain(entry.value))
  {
    assert (pending + [entry])[..|pending + [entry]| - 1] == pending;
  }

  lemma {:induction false} PendingCount(pending: seq<Entry>)
    ensures PendingNodes(pending) >= |pending|
  {
    if pending != [] {
      PendingCount(pending[..|pending| - 1]);
    }
  }

  lemma NothingPending()
    ensures PendingNodes([]) == 0 && PendingBytes([]) == 0 && PendingIds([]) == multiset{} && PendingShallow([]) && PendingPlain([])
  {
  }

  // What has been counted and what still waits make up the whole value.
  ghost predicate Accounted(root: Json, nodes: nat, bytes: nat, seen: set<int>, pending: seq<Entry>) {
    && nodes + PendingNodes(pending) == Nodes(root)
    && bytes + PendingBytes(pending) == Bytes(root)
    && multiset(seen) + PendingIds(pending) == Ids(root)
    && (PendingShallow(pending) <==> Shallow(root, 0))
    && (PendingPlain(pending) <==> Plain(root))
  }

  lemma StartAccounted(root: Json)
    ensures Accounted(root, 0, 0, {}, [Entry(root, 0)])
  {
    PendingPush([], Entry(root, 0));
    NothingPending();
    assert [] + [Entry(root, 0)] == [Entry(root, 0)];
  }

  // The loop over one object's properties: pushes their values, or refuses.
  method PushFields(pending0: seq<Entry>, fields0: Fields, isArray: bool, depth: nat, nodes: nat, bytes0: nat)
    returns (ok: bool, pending: seq<Entry>, bytes: nat)
    ensures ok ==>
              && PendingNodes(pending) == PendingNodes(pending0) + FieldNodes(fields0)
              && bytes + PendingBytes(pending) == bytes0 + PendingBytes(pending0) + FieldBytes(fields0)
              && PendingIds(pending) == PendingIds(pending0) + FieldIds(fields0)
              && (PendingShallow(pending) <==> PendingShallow(pending0) && FieldsShallow(fields0, depth))
              && (PendingPlain(pending) <==> PendingPlain(pending0) && FieldsPlain(fields0, isArray))
    ensures !ok ==>
              !FieldsPlain(fields0, isArray) || nodes + PendingNodes(pending0) + FieldNodes(fields0) > MAX_PACKET_NODES
  {
    hide PendingNodes, PendingBytes, PendingIds, PendingShallow, PendingPlain;
    pending, bytes := pending0, bytes0;
    var fields := fields0;
    while fields.MoreFields?
      invariant PendingNodes(pending) + FieldNodes(fields) == PendingNodes(pending0) + FieldNodes(fields0)
      invariant bytes + PendingBytes(pending) + FieldBytes(fields) == bytes0 + PendingBytes(pending0) + FieldBytes(fields0)
      invariant PendingIds(pending) + FieldIds(fields) == PendingIds(pending0) + FieldIds(fields0)
      invariant PendingShallow(pending) && FieldsShallow(fields, depth) <==> PendingShallow(pending0) && FieldsShallow(fields0, depth)
      invariant PendingPlain(pending) && FieldsPlain(fields, isArray) <==> PendingPlain(pending0) && FieldsPlain(fields0, isArray)
      invariant !FieldsPlain(fields, isArray) ==> !FieldsPlain(fields0, isArray)
      decreases fields
    {
      if !fields.usable {
        return false, pending, bytes;
      }
      if isArray && !fields.isIndex {
        return false, pending, bytes;
      }
      bytes := bytes + fields.keyBytes + 2;
      PendingPush(pending, Entry(fields.value, depth));
      pending := pending + [Entry(fields.value, depth)];
      fields := fields.rest;
      if |pending| + nodes > MAX_PACKET_NODES {
        PendingCount(pending);
        return false, pending, bytes;
      }
    }
    ok := true;
  }

  // One popped value, within the depth limit: counted, and its properties pushed, or refused.
  method Visit(entry: Entry, seen0: set<int>, pending0: seq<Entry>, nodes: nat, bytes0: nat)
    returns (ok: bool, seen: set<int>, pending: seq<Entry>, bytes: nat)
    requires entry.depth <= MAX_PACKET_DEPTH
    ensures ok ==>
              && PendingNodes(pending) + 1 == PendingNodes(pending0) + Nodes(entry.value)
              && bytes + PendingBytes(pending) == bytes0 + PendingBytes(pending0) + Bytes(entry.value)
              && multiset(seen) + PendingIds(pending) == multiset(seen0) + PendingIds(pending0) + Ids(entry.value)
              && (PendingShallow(pending) <==> PendingShallow(pending0) && Shallow(entry.value, entry.depth))
              && (PendingPlain(pending) <==> PendingPlain(pending0) && Plain(entry.value))
    ensures !ok ==>
              || !Plain(entry.value)
              || nodes + PendingNodes(pending0) + Nodes(entry.value) > MAX_PACKET_NODES + 1
              || (entry.value.Composite? && entry.value.id in seen0)
  {
    hide PendingNodes, PendingBytes, PendingIds, PendingShallow, PendingPlain, FieldNodes, FieldBytes, FieldIds, FieldsShallow, FieldsPlain;
    ok, seen, pending, bytes := true, seen0, pending0, bytes0;
    match entry.value {
      case Text(raw, encoded) =>
        if raw > MAX_PACKET_BYTES {
          ok := false;
          return;
        }
        bytes := bytes + encoded;
      case Number(finite) =>
        if !finite {
          ok := false;
          return;
        }
        bytes := bytes + 24;
      case Constant =>
        bytes := bytes + 5;
      case Composite(id, isArray, plainPrototype, hasSymbols, fields) =>
        if id in seen {
          ok := false;
          return;
        }
        SeenOnce(seen, id);
        seen := seen + {id};
        if (!isArray && !plainPrototype) || hasSymbols {
          ok := false;
          return;
        }
        ok, pending, bytes := PushFields(pending, fields, isArray, entry.depth + 1, nodes, bytes);
        bytes := bytes + 2;
      case Other =>
        ok := false;
    }
  }

  lemma PopAccounted(root: Json, nodes: nat, bytes: nat, seen: set<int>, pending: seq<Entry>)
    requires pending != [] && Accounted(root, nodes, bytes, seen, pending)
    ensures var rest, entry := pending[..|pending| - 1], pending[|pending| - 1];
            && nodes + PendingNodes(rest) + Nodes(entry.value) == Nodes(root)
            && bytes + PendingBytes(rest) + Bytes(entry.value) == Bytes(root)
            && multiset(seen) + PendingIds(rest) + Ids(entry.value) == Ids(root)
            && (PendingShallow(rest) && Shallow(entry.value, entry.depth) <==> Shallow(root, 0))
            && (PendingPlain(rest) && Plain(entry.value) <==> Plain(root))
            && Nodes(entry.value) >= 1
  {
    hide PendingNodes, PendingBytes, PendingIds, PendingShallow, PendingPlain, Shallow, Plain, Bytes, Ids;
    var rest, entry := pending[..|pending| - 1], pending[|pending| - 1];
    assert pending == rest + [entry];
    PendingPush(rest, entry);
  }

  // The check as written decides the recursive property.
  method IsBoundedJson(root: Json) returns (bounded: bool)
    ensures bounded <==> Bounded(root)
  {
    hide PendingNodes, PendingBytes, PendingIds, PendingShallow, PendingPlain, Unshared, Nodes, Bytes, Ids, Plain, FieldsShallow;
    var pending := [Entry(root, 0)];
    var seen: set<int> := {};
    var nodes: nat, bytes: nat := 0, 0;
    StartAccounted(root);
    while pending != []
      invariant Accounted(root, nodes, bytes, seen, pending)
      invariant nodes <= MAX_PACKET_NODES && bytes <= MAX_PACKET_BYTES
      decreases MAX_PACKET_NODES - nodes
    {
      var entry := pending[|pending| - 1];
      PopAccounted(root, nodes, bytes, seen, pending);
      pending := pending[..|pending| - 1];
      nodes := nodes + 1;
      if nodes > MAX_PACKET_NODES || entry.depth > MAX_PACKET_DEPTH {
        return false;
      }
      ghost var before, rest := seen, pending;
      var ok;
      ok, seen, pending, bytes := Visit(entry, seen, pending, nodes, bytes);
      if !ok {
        if entry.value.Composite? && entry.value.id in before {
          SeenTwice(root, before, rest, entry.value);
        }
        return false;
      }
      if bytes > MAX_PACKET_BYTES {
        return false;
      }
    }
    NothingPending();
    SetsAreUnshared(seen);
    assert multiset(seen) + multiset{} == multiset(seen);
    bounded := true;
  }

  lemma SeenOnce(seen: set<int>, id: int)
    requires id !in seen
    ensures multiset(seen + {id}) == multiset(seen) + multiset{id}
  {
  }

  lemma SeenTwice(root: Json, seen: set<int>, pending: seq<Entry>, value: Json)
    requires value.Composite? && value.id in seen
    requires multiset(seen) + PendingIds(pending) + Ids(value) == Ids(root)
    ensures !Unshared(Ids(root))
  {
    assert Ids(root)[value.id] >= 2;
  }

  lemma SetsAreUnshared(seen: set<int>)
    ensures Unshared(multiset(seen))
  {
  }
}
