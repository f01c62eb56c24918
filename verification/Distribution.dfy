// The bookkeeping loops of the loaders: which nodes wait for which key, and what
// each node has received so far.
module Distribution {
  import opened Lists
  import opened EagerSpec

  // ---- many-to-one ------------------------------------------------------------------

  // The nodes that hold key k, in order.
  ghost function Sharing<N>(nodes: seq<N>, keys: seq<Option<int>>, k: int): seq<N>
    requires |nodes| == |keys|
  {
    if keys == [] then []
    else
      var n := |keys| - 1;
      if keys[n] == Some(k) then Sharing(nodes[..n], keys[..n], k) + [nodes[n]] else Sharing(nodes[..n], keys[..n], k)
  }

  lemma {:induction false} SharingMembers<N>(nodes: seq<N>, keys: seq<Option<int>>, k: int)
    requires |nodes| == |keys|
    ensures forall i :: 0 <= i < |keys| && keys[i] == Some(k) ==> nodes[i] in Sharing(nodes, keys, k)
    ensures forall x :: x in Sharing(nodes, keys, k) ==>
              exists i :: 0 <= i < |keys| && nodes[i] == x && keys[i] == Some(k)
  {
    if keys != [] {
      var n := |keys| - 1;
      SharingMembers(nodes[..n], keys[..n], k);
      forall x | x in Sharing(nodes[..n], keys[..n], k)
        ensures exists i :: 0 <= i < |keys| && nodes[i] == x && keys[i] == Some(k)
      {
        var i :| 0 <= i < n && nodes[..n][i] == x && keys[..n][i] == Some(k);
        assert nodes[i] == x && keys[i] == Some(k);
      }
      forall i | 0 <= i < n && keys[i] == Some(k)
        ensures nodes[i] in Sharing(nodes, keys, k)
      {
        assert nodes[..n][i] == nodes[i] && keys[..n][i] == keys[i];
      }
    }
  }

  lemma SharingNone<N>(nodes: seq<N>, keys: seq<Option<int>>, k: int)
    requires |nodes| == |keys| && Some(k) !in keys
    ensures Sharing(nodes, keys, k) == []
  {
    SharingMembers(nodes, keys, k);
    if Sharing(nodes, keys, k) != [] {
      assert Sharing(nodes, keys, k)[0] in Sharing(nodes, keys, k);
      assert false;
    }
  }

  // Each key with the nodes that hold it.
  function KeyMap<N>(nodes: seq<N>, keys: seq<Option<int>>): map<int, seq<N>>
    requires |nodes| == |keys|
  {
    if keys == [] then map[]
    else
      var n := |keys| - 1;
      AddKey(KeyMap(nodes[..n], keys[..n]), keys[n], nodes[n])
  }

  function AddKey<N>(m: map<int, seq<N>>, key: Option<int>, n: N): map<int, seq<N>> {
    match key
    case None => m
    case Some(k) => if k in m then m[k := m[k] + [n]] else m[k := [n]]
  }

  lemma {:induction false} KeyMapLookup<N>(nodes: seq<N>, keys: seq<Option<int>>, k: int)
    requires |nodes| == |keys|
    ensures k in KeyMap(nodes, keys) <==> k in Distinct(keys)
    ensures k in KeyMap(nodes, keys) ==> KeyMap(nodes, keys)[k] == Sharing(nodes, keys, k)
  {
    if keys != [] {
      var n := |keys| - 1;
      KeyMapLookup(nodes[..n], keys[..n], k);
      DistinctMembers(keys[..n]);
      if k !in KeyMap(nodes[..n], keys[..n]) {
        SharingNone(nodes[..n], keys[..n], k);
      }
    }
  }

  // The first loop of every many-to-one loader: the keys to ask for, each once,
  // and the nodes that share each key.
  method IndexByKey<N>(nodes: seq<N>, keys: seq<Option<int>>) returns (ids: seq<int>, nodeids: map<int, seq<N>>)
    requires |nodes| == |keys|
    ensures ids == Distinct(keys)
    ensures nodeids == KeyMap(nodes, keys)
  {
    ids, nodeids := [], map[];
    for i := 0 to |nodes|
      invariant ids == Distinct(keys[..i])
      invariant nodeids == KeyMap(nodes[..i], keys[..i])
    {
      assert keys[..i + 1][..i] == keys[..i] && nodes[..i + 1][..i] == nodes[..i];
      if keys[i].Some? {
        var fk := keys[i].value;
        KeyMapLookup(nodes[..i], keys[..i], fk);
        if fk !in nodeids {
          ids := ids + [fk];
        }
        nodeids := AddKey(nodeids, keys[i], nodes[i]);
      }
    }
    assert keys[..|keys|] == keys && nodes[..|nodes|] == nodes;
  }

  // The keys are a function of the node objects.
  ghost predicate KeysOfNodes<N>(nodes: seq<N>, keys: seq<Option<int>>) {
    |nodes| == |keys| &&
    (|nodes| == 0 ||
     (var n := |nodes| - 1;
      KeysOfNodes(nodes[..n], keys[..n]) && forall i :: 0 <= i < n && nodes[i] == nodes[n] ==> keys[i] == keys[n]))
  }

  lemma AsMany<N>(nodes: seq<N>, keys: seq<Option<int>>)
    requires KeysOfNodes(nodes, keys)
    ensures |nodes| == |keys|
  {
  }

  lemma {:induction false} KeysAgree<N>(nodes: seq<N>, keys: seq<Option<int>>)
    requires KeysOfNodes(nodes, keys)
    ensures forall i, j :: 0 <= i < |nodes| && 0 <= j < |nodes| && nodes[i] == nodes[j] ==> keys[i] == keys[j]
  {
    if |nodes| > 0 {
      var n := |nodes| - 1;
      KeysAgree(nodes[..n], keys[..n]);
      assert forall i :: 0 <= i < n ==> nodes[..n][i] == nodes[i] && keys[..n][i] == keys[i];
    }
  }

  lemma SharingExactly<N>(nodes: seq<N>, keys: seq<Option<int>>, k: int)
    requires KeysOfNodes(nodes, keys)
    ensures forall i :: 0 <= i < |nodes| ==> (nodes[i] in Sharing(nodes, keys, k) <==> keys[i] == Some(k))
    ensures forall x :: x in Sharing(nodes, keys, k) ==> x in nodes
  {
    SharingMembers(nodes, keys, k);
    KeysAgree(nodes, keys);
  }

  // The neighbour linked to a key after the first j neighbours.
  ghost function LinkedUpTo<T>(key: Option<int>, ids: seq<int>, xs: seq<T>, j: nat): Option<T>
    requires j <= |ids| == |xs|
  {
    if j == 0 then None
    else if key == Some(ids[j - 1]) then Some(xs[j - 1])
    else LinkedUpTo(key, ids, xs, j - 1)
  }

  lemma {:induction false} LinkedPrefix<T>(key: Option<int>, ids: seq<int>, xs: seq<T>, j: nat)
    requires j <= |ids| == |xs|
    ensures LinkedUpTo(key, ids, xs, j) == Linked(key, ids[..j], xs[..j])
  {
    if j > 0 {
      LinkedPrefix(key, ids, xs, j - 1);
      assert ids[..j][..j - 1] == ids[..j - 1];
    }
  }

  lemma LinkedFully<T>(key: Option<int>, ids: seq<int>, xs: seq<T>)
    requires |ids| == |xs|
    ensures LinkedUpTo(key, ids, xs, |ids|) == Linked(key, ids, xs)
  {
    LinkedPrefix(key, ids, xs, |ids|);
    assert ids[..|ids|] == ids && xs[..|ids|] == xs;
  }

  // ---- one-to-many ------------------------------------------------------------------

  // No node object occurs twice.
  ghost predicate DistinctNodes<N>(nodes: seq<N>) {
    |nodes| == 0 || (nodes[|nodes| - 1] !in nodes[..|nodes| - 1] && DistinctNodes(nodes[..|nodes| - 1]))
  }

  lemma {:induction false} DistinctPairs<N>(nodes: seq<N>)
    requires DistinctNodes(nodes)
    ensures forall i, j :: 0 <= i < j < |nodes| ==> nodes[i] != nodes[j]
  {
    if |nodes| > 0 {
      var t := nodes[..|nodes| - 1];
      DistinctPairs(t);
      forall i, j | 0 <= i < j < |nodes|
        ensures nodes[i] != nodes[j]
      {
        assert nodes[i] == t[i];
        if j < |t| {
          assert nodes[j] == t[j];
        }
      }
    }
  }

  // Each id with the last node that has it.
  function LastNodes<N>(nodes: seq<N>, ids: seq<int>): map<int, N>
    requires |nodes| == |ids|
  {
    if ids == [] then map[]
    else LastNodes(nodes[..|ids| - 1], ids[..|ids| - 1])[ids[|ids| - 1] := nodes[|ids| - 1]]
  }

  lemma {:induction false} LastNodesLookup<N>(nodes: seq<N>, ids: seq<int>, k: int)
    requires |nodes| == |ids|
    ensures k in LastNodes(nodes, ids) <==> LastIndex(ids, k) >= 0
    ensures k in LastNodes(nodes, ids) <==> k in ids
    ensures k in LastNodes(nodes, ids) ==> LastNodes(nodes, ids)[k] == nodes[LastIndex(ids, k)]
  {
    if ids != [] {
      LastNodesLookup(nodes[..|ids| - 1], ids[..|ids| - 1], k);
    }
  }

  // The first loop of every one-to-many loader: later nodes replace earlier ones
  // with the same id.
  method IndexById<N>(nodes: seq<N>, ids: seq<int>) returns (fks: seq<int>, nodeids: map<int, N>)
    requires |nodes| == |ids|
    ensures fks == ids
    ensures nodeids == LastNodes(nodes, ids)
  {
    fks, nodeids := [], map[];
    for i := 0 to |nodes|
      invariant fks == ids[..i]
      invariant nodeids == LastNodes(nodes[..i], ids[..i])
    {
      assert ids[..i + 1][..i] == ids[..i] && nodes[..i + 1][..i] == nodes[..i];
      fks := fks + [ids[i]];
      nodeids := nodeids[ids[i] := nodes[i]];
    }
    assert ids[..|ids|] == ids && nodes[..|nodes|] == nodes;
  }

  // The lists of all nodes after the first j neighbours, each of which goes to the
  // node that its key refers to.
  ghost function Handed<T>(ids: seq<int>, fks: seq<int>, xs: seq<T>, j: nat): (r: seq<seq<T>>)
    requires j <= |fks| == |xs|
    ensures |r| == |ids|
  {
    if j == 0 then Repeat(|ids|, [])
    else
      var lists, o := Handed(ids, fks, xs, j - 1), LastIndex(ids, fks[j - 1]);
      if o < 0 then lists else lists[o := lists[o] + [xs[j - 1]]]
  }

  lemma NothingHanded<T>(ids: seq<int>, fks: seq<int>, xs: seq<T>)
    requires |fks| == |xs|
    ensures Handed(ids, fks, xs, 0) == Repeat(|ids|, [])
  {
  }

  lemma {:induction false} HandedPrefix<T>(ids: seq<int>, fks: seq<int>, xs: seq<T>, j: nat, i: nat)
    requires j <= |fks| == |xs| && i < |ids|
    ensures Handed(ids, fks, xs, j)[i] == Fan(ids, i, fks[..j], xs[..j])
  {
    if j > 0 {
      HandedPrefix(ids, fks, xs, j - 1, i);
      PickedStep(Is(ids[i]), fks, xs, j - 1);
    }
  }

  lemma HandedFully<T>(ids: seq<int>, fks: seq<int>, xs: seq<T>)
    requires |fks| == |xs|
    ensures Handed(ids, fks, xs, |fks|) == FanAll(ids, fks, xs)
  {
    assert fks[..|fks|] == fks && xs[..|fks|] == xs;
    forall i | 0 <= i < |ids|
      ensures Handed(ids, fks, xs, |fks|)[i] == FanAll(ids, fks, xs)[i]
    {
      HandedPrefix(ids, fks, xs, |fks|, i);
    }
  }

  lemma OwnerIndex<N>(nodes: seq<N>, ids: seq<int>, k: int)
    requires |nodes| == |ids| && DistinctNodes(nodes) && k in LastNodes(nodes, ids)
    ensures 0 <= LastIndex(ids, k) < |nodes| && nodes[LastIndex(ids, k)] == LastNodes(nodes, ids)[k]
    ensures forall i :: 0 <= i < |nodes| && i != LastIndex(ids, k) ==> nodes[i] != LastNodes(nodes, ids)[k]
  {
    LastNodesLookup(nodes, ids, k);
    DistinctPairs(nodes);
  }

  // What a node has received after the first j neighbours: nothing unless it owns
  // its id, else the neighbours whose key satisfies p.
  ghost function Received<T>(owns: bool, p: int -> bool, keys: seq<int>, xs: seq<T>, j: nat): seq<T>
    requires j <= |keys| == |xs|
  {
    if j == 0 then []
    else if owns && p(keys[j - 1]) then Received(owns, p, keys, xs, j - 1) + [xs[j - 1]]
    else Received(owns, p, keys, xs, j - 1)
  }

  lemma {:induction false} ReceivedPrefix<T>(owns: bool, p: int -> bool, keys: seq<int>, xs: seq<T>, j: nat)
    requires j <= |keys| == |xs|
    ensures Received(owns, p, keys, xs, j) == if owns then Picked(p, keys[..j], xs[..j]) else []
  {
    if j > 0 {
      ReceivedPrefix(owns, p, keys, xs, j - 1);
      PickedStep(p, keys, xs, j - 1);
    }
  }

  lemma ReceivedFully<T>(owns: bool, p: int -> bool, keys: seq<int>, xs: seq<T>)
    requires |keys| == |xs|
    ensures Received(owns, p, keys, xs, |keys|) == if owns then Picked(p, keys, xs) else []
  {
    ReceivedPrefix(owns, p, keys, xs, |keys|);
    assert keys[..|keys|] == keys && xs[..|keys|] == xs;
  }

  predicate Owns(ids: seq<int>, i: nat)
    requires i < |ids|
  {
    LastIndex(ids, ids[i]) == i
  }

  // Neighbour j goes to its owner and to no other node.
  lemma OwnerOnly<N>(nodes: seq<N>, ids: seq<int>, k: int)
    requires |nodes| == |ids| && DistinctNodes(nodes) && k in LastNodes(nodes, ids)
    ensures LastNodes(nodes, ids)[k] in nodes
    ensures forall i :: 0 <= i < |nodes| ==>
              (nodes[i] == LastNodes(nodes, ids)[k] <==> Owns(ids, i) && Is(ids[i])(k))
  {
    LastNodesLookup(nodes, ids, k);
    DistinctPairs(nodes);
  }

  // ---- many-to-many -----------------------------------------------------------------

  // The set of nodes that the first j join rows connect to each group.
  function NodeSets<N>(nodeids: map<int, N>, outs: seq<int>, gids: seq<int>, j: nat): map<int, set<N>>
    requires j <= |outs| == |gids| && forall o :: o in outs ==> o in nodeids
  {
    if j == 0 then map[]
    else
      assert outs[j - 1] in outs;
      AddNode(NodeSets(nodeids, outs, gids, j - 1), gids[j - 1], nodeids[outs[j - 1]])
  }

  function AddNode<N>(m: map<int, set<N>>, g: int, n: N): map<int, set<N>> {
    if g in m then m[g := m[g] + {n}] else m[g := {n}]
  }

  lemma {:induction false} NodeSetsKeys<N>(nodeids: map<int, N>, outs: seq<int>, gids: seq<int>, j: nat)
    requires j <= |outs| == |gids| && forall o :: o in outs ==> o in nodeids
    ensures forall g :: g in NodeSets(nodeids, outs, gids, j) <==> g in gids[..j]
  {
    if j > 0 {
      NodeSetsKeys(nodeids, outs, gids, j - 1);
      assert gids[..j] == gids[..j - 1] + [gids[j - 1]];
    }
  }

  // Node i is in the set of group g exactly if it owns its id and some row joins
  // the two.
  lemma {:induction false} NodeSetsMembers<N>(
    nodes: seq<N>, ids: seq<int>, outs: seq<int>, gids: seq<int>, j: nat, g: int, i: nat)
    requires |nodes| == |ids| && DistinctNodes(nodes) && i < |nodes| && j <= |outs| == |gids|
    requires forall o :: o in outs ==> o in LastNodes(nodes, ids)
    requires g in NodeSets(LastNodes(nodes, ids), outs, gids, j)
    ensures nodes[i] in NodeSets(LastNodes(nodes, ids), outs, gids, j)[g]
       <==> Owns(ids, i) && MemberOf(outs[..j], gids[..j], ids[i])(g)
  {
    if j > 0 {
      var before := NodeSets(LastNodes(nodes, ids), outs, gids, j - 1);
      assert outs[j - 1] in outs;
      OwnerOnly(nodes, ids, outs[j - 1]);
      MemberStep(outs, gids, j - 1, ids[i], g);
      if g in before {
        NodeSetsMembers(nodes, ids, outs, gids, j - 1, g, i);
      } else {
        NodeSetsKeys(LastNodes(nodes, ids), outs, gids, j - 1);
      }
    }
  }

  lemma MemberStep(outs: seq<int>, gids: seq<int>, j: nat, a: int, g: int)
    requires j < |outs| == |gids|
    ensures MemberOf(outs[..j + 1], gids[..j + 1], a)(g)
       <==> MemberOf(outs[..j], gids[..j], a)(g) || (gids[j] == g && outs[j] == a)
  {
    if MemberOf(outs[..j], gids[..j], a)(g) {
      var k :| 0 <= k < j && gids[..j][k] == g && outs[..j][k] == a;
      assert gids[..j + 1][k] == g && outs[..j + 1][k] == a;
    }
    if gids[j] == g && outs[j] == a {
      assert gids[..j + 1][j] == g && outs[..j + 1][j] == a;
    }
    if MemberOf(outs[..j + 1], gids[..j + 1], a)(g) {
      var k :| 0 <= k < j + 1 && gids[..j + 1][k] == g && outs[..j + 1][k] == a;
      if k < j {
        assert gids[..j][k] == g && outs[..j][k] == a;
      }
    }
  }

  // The lists of all nodes after the first j distinct groups.
  ghost function Gathered<T>(
    ids: seq<int>, outs: seq<int>, gids: seq<int>, keys: seq<int>, xs: seq<T>, j: nat): (r: seq<seq<T>>)
    requires |outs| == |gids| && j <= |keys| == |xs|
    ensures |r| == |ids|
    ensures forall i :: 0 <= i < |ids| ==> r[i] == Received(Owns(ids, i), MemberOf(outs, gids, ids[i]), keys, xs, j)
  {
    seq(|ids|, i requires 0 <= i < |ids| => Received(Owns(ids, i), MemberOf(outs, gids, ids[i]), keys, xs, j))
  }

  lemma GatheredFully<T>(ids: seq<int>, outs: seq<int>, gids: seq<int>, xs: seq<T>)
    requires |outs| == |gids| == |xs|
    ensures Gathered(ids, outs, gids, At(gids, Firsts(gids)), At(xs, Firsts(gids)), |Firsts(gids)|)
         == GatherAll(ids, outs, gids, xs)
  {
    var keys, ys := At(gids, Firsts(gids)), At(xs, Firsts(gids));
    forall i | 0 <= i < |ids|
      ensures Gathered(ids, outs, gids, keys, ys, |keys|)[i] == GatherAll(ids, outs, gids, xs)[i]
    {
      ReceivedFully(Owns(ids, i), MemberOf(outs, gids, ids[i]), keys, ys);
    }
  }

  // The lists of all nodes after the first j groups went to the nodes of their sets.
  ghost function Spread<N, T>(
    nodes: seq<N>, nids: map<int, set<N>>, keys: seq<int>, xs: seq<T>, j: nat): (r: seq<seq<T>>)
    requires j <= |keys| == |xs|
    ensures |r| == |nodes|
  {
    if j == 0 then Repeat(|nodes|, [])
    else
      var lists := Spread(nodes, nids, keys, xs, j - 1);
      seq(|nodes|, i requires 0 <= i < |nodes| =>
        if keys[j - 1] in nids && nodes[i] in nids[keys[j - 1]] then lists[i] + [xs[j - 1]] else lists[i])
  }

  lemma {:induction false} SpreadIsGathered<N, T>(
    nodes: seq<N>, ids: seq<int>, outs: seq<int>, gids: seq<int>, keys: seq<int>, xs: seq<T>, j: nat)
    requires |nodes| == |ids| && DistinctNodes(nodes) && |outs| == |gids| && j <= |keys| == |xs|
    requires forall o :: o in outs ==> o in LastNodes(nodes, ids)
    requires forall k :: k in keys ==> k in gids
    ensures Spread(nodes, NodeSets(LastNodes(nodes, ids), outs, gids, |gids|), keys, xs, j)
         == Gathered(ids, outs, gids, keys, xs, j)
  {
    if j > 0 {
      SpreadIsGathered(nodes, ids, outs, gids, keys, xs, j - 1);
      assert outs[..|gids|] == outs && gids[..|gids|] == gids;
      NodeSetsKeys(LastNodes(nodes, ids), outs, gids, |gids|);
      assert keys[j - 1] in keys;
      forall i | 0 <= i < |nodes|
        ensures nodes[i] in NodeSets(LastNodes(nodes, ids), outs, gids, |gids|)[keys[j - 1]]
           <==> Owns(ids, i) && MemberOf(outs, gids, ids[i])(keys[j - 1])
      {
        NodeSetsMembers(nodes, ids, outs, gids, |gids|, keys[j - 1], i);
      }
    }
  }

  lemma {:induction false} NodeSetsWithin<N>(
    nodes: seq<N>, ids: seq<int>, outs: seq<int>, gids: seq<int>, j: nat, g: int)
    requires |nodes| == |ids| && j <= |outs| == |gids|
    requires forall o :: o in outs ==> o in LastNodes(nodes, ids)
    requires g in NodeSets(LastNodes(nodes, ids), outs, gids, j)
    ensures forall x :: x in NodeSets(LastNodes(nodes, ids), outs, gids, j)[g] ==> x in nodes
  {
    if j > 0 {
      assert outs[j - 1] in outs;
      LastNodesLookup(nodes, ids, outs[j - 1]);
      if g in NodeSets(LastNodes(nodes, ids), outs, gids, j - 1) {
        NodeSetsWithin(nodes, ids, outs, gids, j - 1, g);
      }
    }
  }
}
