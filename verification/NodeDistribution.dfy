// The scan loop of account rows, and the distribution loops for neighbours that
// are accounts or join rows (backend/ent/account_query.go:562-570, 720-844;
// backend/ent/accountgroup_query.go:380-436).
module NodeDistribution {
  import opened Lists
  import opened Rows
  import opened Entities
  import opened EagerSpec
  import opened Queries
  import opened Denotation
  import opened Distribution
  import opened Loaders

  // ---- the scan loop ----------------------------------------------------------------

  // The node that Assign has made of a row, before any edge is loaded.
  ghost predicate ScannedNode(n: Account, row: Row, loadedTypes: seq<bool>)
    reads n
  {
    && n.fields == row && n.loadedTypes == loadedTypes
    && n.Groups == [] && n.Proxy == null && n.Parent == null
    && n.Children == [] && n.UsageLogs == [] && n.AccountGroups == []
  }

  // ScanValues, Scan and Assign for one row.
  method NewAccount(columns: seq<Column>, row: Row, loadedTypes: seq<bool>) returns (n: Account)
    requires Known(columns) && TypedRow(row) && CellOf(row, Id).IntCell?
    ensures fresh(n) && ScannedNode(n, Decode(columns, row), loadedTypes)
  {
    var values := ScanValues(columns);
    RowsScan(columns, values, row);
    n := new Account(loadedTypes);
    DecodesRow(columns, row);
    var r := n.AssignValues(columns, values);
  }

  ghost predicate ScannedAll(nodes: seq<Account>, rows: seq<Row>, loadedTypes: seq<bool>)
    reads nodes
  {
    |nodes| == |rows| && forall i :: 0 <= i < |nodes| ==> ScannedNode(nodes[i], rows[i], loadedTypes)
  }

  method NewAccounts(columns: seq<Column>, rows: seq<Row>, loadedTypes: seq<bool>) returns (nodes: seq<Account>)
    requires Known(columns)
    requires forall r :: r in rows ==> TypedRow(r) && CellOf(r, Id).IntCell?
    ensures forall i :: 0 <= i < |nodes| ==> fresh(nodes[i])
    ensures DistinctNodes(nodes) && ScannedAll(nodes, DecodeAll(columns, rows), loadedTypes)
  {
    nodes := [];
    for i := 0 to |rows|
      invariant |nodes| == i && forall k :: 0 <= k < i ==> fresh(nodes[k])
      invariant DistinctNodes(nodes)
      invariant forall k :: 0 <= k < i ==> ScannedNode(nodes[k], DecodeAll(columns, rows)[k], loadedTypes)
    {
      assert rows[i] in rows;
      var n := NewAccount(columns, rows[i], loadedTypes);
      assert n !in nodes;
      DistinctSnoc(nodes, n);
      nodes := nodes + [n];
    }
  }

  lemma DistinctSnoc<N>(nodes: seq<N>, n: N)
    requires DistinctNodes(nodes) && n !in nodes
    ensures DistinctNodes(nodes + [n])
  {
    assert (nodes + [n])[..|nodes|] == nodes;
  }

  // The column list of AccountQuery.querySpec.
  method AccountSpec(fields: seq<Column>, all: seq<Column>, withProxy: bool, withParent: bool)
    returns (columns: seq<Column>)
    ensures columns == AccountColumns(all, fields, withProxy, withParent)
  {
    columns := all;
    if |fields| > 0 {
      columns := SelectColumns(fields);
      if withProxy {
        columns := AppendOnce(columns, ProxyId);
      }
      if withParent {
        columns := AppendOnce(columns, ParentAccountId);
      }
    }
  }

  lemma AccountColumnsKnown(all: seq<Column>, fields: seq<Column>, withProxy: bool, withParent: bool)
    requires Known(all) && FieldError(fields, all).None?
    requires AccountKind(Id) != UnknownKind && AccountKind(ProxyId) != UnknownKind
               && AccountKind(ParentAccountId) != UnknownKind
    ensures Known(AccountColumns(all, fields, withProxy, withParent))
  {
    FilterKnown(all, fields);
    KnownCons(Id, Filter(NotId(), fields));
    var base := [Id] + Filter(NotId(), fields);
    MaybeKnown(base, withProxy, ProxyId);
    MaybeKnown(MaybeOnce(base, withProxy, ProxyId), withParent, ParentAccountId);
  }

  lemma FilterKnown(all: seq<Column>, fields: seq<Column>)
    requires Known(all) && FieldError(fields, all).None?
    ensures Known(Filter(NotId(), fields))
  {
    FieldsValid(fields, all);
    FilterMembers(NotId(), fields);
  }

  lemma KnownCons(c: Column, columns: seq<Column>)
    requires AccountKind(c) != UnknownKind && Known(columns)
    ensures Known([c] + columns)
  {
  }

  lemma MaybeKnown(columns: seq<Column>, wanted: bool, c: Column)
    requires Known(columns) && AccountKind(c) != UnknownKind
    ensures Known(MaybeOnce(columns, wanted, c))
  {
  }

  lemma {:induction false} FieldsValid(fields: seq<Column>, all: seq<Column>)
    requires FieldError(fields, all).None?
    ensures forall c :: c in fields ==> c in all
  {
    if fields != [] {
      FieldsValid(fields[..|fields| - 1], all);
      assert fields == fields[..|fields| - 1] + [fields[|fields| - 1]];
    }
  }

  // ---- distribution of accounts -------------------------------------------------------

  function AccountPointer(x: Option<Account>): Account? {
    if x.None? then null else x.value
  }

  ghost predicate ParentsLinked(nodes: seq<Account>, keys: seq<Option<int>>, ids: seq<int>, ns: seq<Account>, j: nat)
    requires |nodes| == |keys| && j <= |ids| == |ns|
    reads nodes`Parent
  {
    forall i :: 0 <= i < |nodes| ==> nodes[i].Parent == AccountPointer(LinkedUpTo(keys[i], ids, ns, j))
  }

  method AssignParent(ghost nodes: seq<Account>, group: seq<Account>, n: Account)
    requires forall x :: x in group ==> x in nodes
    modifies nodes`Parent
    ensures forall x :: x in nodes ==> x.Parent == if x in group then n else old(x.Parent)
  {
    for m := 0 to |group|
      invariant forall x :: x in nodes ==> x.Parent == if x in group[..m] then n else old(x.Parent)
    {
      assert group[m] in group && group[..m + 1] == group[..m] + [group[m]];
      group[m].Parent := n;
    }
    assert group[..|group|] == group;
  }

  method LinkParent(
    nodes: seq<Account>, ghost keys: seq<Option<int>>, ghost ids: seq<int>, group: seq<Account>, ns: seq<Account>,
    j: nat)
    requires KeysOfNodes(nodes, keys) && j < |ids| == |ns|
    requires group == Sharing(nodes, keys, ids[j])
    requires ParentsLinked(nodes, keys, ids, ns, j)
    modifies nodes`Parent
    ensures ParentsLinked(nodes, keys, ids, ns, j + 1)
  {
    SharingExactly(nodes, keys, ids[j]);
    AssignParent(nodes, group, ns[j]);
  }

  method DistributeParents(
    nodes: seq<Account>, ghost keys: seq<Option<int>>, ghost ids: seq<int>, nodeids: map<int, seq<Account>>,
    neighbors: seq<Account>)
    returns (r: Outcome, ghost at: nat)
    requires KeysOfNodes(nodes, keys) && nodeids == KeyMap(nodes, keys)
    requires |ids| == |neighbors| && forall j :: 0 <= j < |ids| ==> ids[j] == IntOf(neighbors[j].fields, Id)
    requires forall i :: 0 <= i < |nodes| ==> nodes[i].Parent == null
    modifies nodes`Parent
    ensures r.Err? ==> at < |neighbors| && ids[at] !in nodeids
    ensures r.Ok? ==> ParentsLinked(nodes, keys, ids, neighbors, |neighbors|)
  {
    hide KeysOfNodes, KeyMap, Sharing;
    AsMany(nodes, keys);
    for j := 0 to |neighbors|
      invariant ParentsLinked(nodes, keys, ids, neighbors, j)
    {
      var id := IntOf(neighbors[j].fields, Id);
      if id !in nodeids {
        return Err(Returns(UnexpectedNode(id))), j;
      }
      KeyMapLookup(nodes, keys, id);
      LinkParent(nodes, keys, ids, nodeids[id], neighbors, j);
    }
    r, at := Ok(()), 0;
  }

  lemma ParentsLoaded(
    S: set<object>, nodes: seq<Account>, keys: seq<Option<int>>, ids: seq<int>, ns: seq<Account>,
    ts: seq<AccountTree>)
    requires |nodes| == |keys| && |ids| == |ns| && AccountsDenote(S, ns, ts)
    requires ParentsLinked(nodes, keys, ids, ns, |ns|)
    ensures ParentsDenote(S, nodes, LinkAll(keys, ids, ts))
  {
    forall i | 0 <= i < |nodes|
      ensures ParentDenotes(S, nodes[i].Parent, LinkAll(keys, ids, ts)[i])
    {
      LinkedFully(keys[i], ids, ns);
    }
  }

  ghost predicate ChildrenHold(nodes: seq<Account>, lists: seq<seq<Account>>)
    reads nodes`Children
  {
    |nodes| == |lists| && forall i :: 0 <= i < |nodes| ==> nodes[i].Children == lists[i]
  }

  method InitChildren(nodes: seq<Account>)
    modifies nodes`Children
    ensures ChildrenHold(nodes, Repeat(|nodes|, []))
  {
    for i := 0 to |nodes|
      invariant forall k :: 0 <= k < i ==> nodes[k].Children == []
    {
      nodes[i].Children := [];
    }
  }

  method AssignChild(
    nodes: seq<Account>, ghost ids: seq<int>, ghost fks: seq<int>, ns: seq<Account>, j: nat, node: Account)
    requires |nodes| == |ids| && j < |fks| == |ns| && DistinctNodes(nodes)
    requires fks[j] in LastNodes(nodes, ids) && node == LastNodes(nodes, ids)[fks[j]]
    requires ChildrenHold(nodes, Handed(ids, fks, ns, j))
    modifies nodes`Children
    ensures ChildrenHold(nodes, Handed(ids, fks, ns, j + 1))
  {
    OwnerIndex(nodes, ids, fks[j]);
    node.Children := node.Children + [ns[j]];
  }

  method DistributeChildren(
    nodes: seq<Account>, ghost ids: seq<int>, ghost fks: seq<int>, nodeids: map<int, Account>,
    neighbors: seq<Account>)
    returns (r: Outcome, ghost at: nat)
    requires |ids| == |nodes| && nodeids == LastNodes(nodes, ids) && DistinctNodes(nodes)
    requires fks == Ints(NodeFields(neighbors), ParentAccountId)
    requires ChildrenHold(nodes, Repeat(|nodes|, []))
    modifies nodes`Children
    ensures r.Err? ==> at < |neighbors|
    ensures r.Err? ==> KeyOf(neighbors[at].fields, ParentAccountId).None? || fks[at] !in nodeids
    ensures r.Ok? ==> ChildrenHold(nodes, Handed(ids, fks, neighbors, |neighbors|))
  {
    hide DistinctNodes, LastNodes, Handed;
    NothingHanded(ids, fks, neighbors);
    for j := 0 to |neighbors|
      invariant ChildrenHold(nodes, Handed(ids, fks, neighbors, j))
    {
      var key := KeyOf(neighbors[j].fields, ParentAccountId);
      if key.None? {
        return Err(Returns(NilForeignKey(neighbors[j].ID()))), j;
      }
      if key.value !in nodeids {
        return Err(Returns(UnexpectedNode(key.value))), j;
      }
      AssignChild(nodes, ids, fks, neighbors, j, nodeids[key.value]);
    }
    r, at := Ok(()), 0;
  }

  lemma ChildrenLoaded(
    S: set<object>, nodes: seq<Account>, ids: seq<int>, fks: seq<int>, ns: seq<Account>, ts: seq<AccountTree>)
    requires |nodes| == |ids| && |fks| == |ns| && AccountsDenote(S, ns, ts)
    requires ChildrenHold(nodes, Handed(ids, fks, ns, |ns|))
    ensures ChildrenDenote(S, nodes, FanAll(ids, fks, ts))
  {
    HandedFully(ids, fks, ns);
    forall i | 0 <= i < |nodes|
      ensures AccountsDenote(S, nodes[i].Children, FanAll(ids, fks, ts)[i])
    {
      AccountsPicked(S, Is(ids[i]), fks, ns, ts);
    }
  }

  // ---- distribution of join rows ------------------------------------------------------

  ghost predicate JoinsHold(nodes: seq<Account>, lists: seq<seq<AccountGroup>>)
    reads nodes`AccountGroups
  {
    |nodes| == |lists| && forall i :: 0 <= i < |nodes| ==> nodes[i].AccountGroups == lists[i]
  }

  method InitJoins(nodes: seq<Account>)
    modifies nodes`AccountGroups
    ensures JoinsHold(nodes, Repeat(|nodes|, []))
  {
    for i := 0 to |nodes|
      invariant forall k :: 0 <= k < i ==> nodes[k].AccountGroups == []
    {
      nodes[i].AccountGroups := [];
    }
  }

  method AssignJoin(
    nodes: seq<Account>, ghost ids: seq<int>, ghost fks: seq<int>, ns: seq<AccountGroup>, j: nat, node: Account)
    requires |nodes| == |ids| && j < |fks| == |ns| && DistinctNodes(nodes)
    requires fks[j] in LastNodes(nodes, ids) && node == LastNodes(nodes, ids)[fks[j]]
    requires JoinsHold(nodes, Handed(ids, fks, ns, j))
    modifies nodes`AccountGroups
    ensures JoinsHold(nodes, Handed(ids, fks, ns, j + 1))
  {
    OwnerIndex(nodes, ids, fks[j]);
    node.AccountGroups := node.AccountGroups + [ns[j]];
  }

  method DistributeJoins(
    nodes: seq<Account>, ghost ids: seq<int>, ghost fks: seq<int>, nodeids: map<int, Account>,
    neighbors: seq<AccountGroup>)
    returns (r: Outcome, ghost at: nat)
    requires |ids| == |nodes| && nodeids == LastNodes(nodes, ids) && DistinctNodes(nodes)
    requires |fks| == |neighbors| && forall j :: 0 <= j < |fks| ==> fks[j] == IntOf(neighbors[j].fields, AccountId)
    requires JoinsHold(nodes, Repeat(|nodes|, []))
    modifies nodes`AccountGroups
    ensures r.Err? ==> at < |neighbors| && fks[at] !in nodeids
    ensures r.Ok? ==> JoinsHold(nodes, Handed(ids, fks, neighbors, |neighbors|))
  {
    hide DistinctNodes, LastNodes, Handed;
    NothingHanded(ids, fks, neighbors);
    for j := 0 to |neighbors|
      invariant JoinsHold(nodes, Handed(ids, fks, neighbors, j))
    {
      var fk := IntOf(neighbors[j].fields, AccountId);
      if fk !in nodeids {
        return Err(Returns(UnexpectedNode(fk))), j;
      }
      AssignJoin(nodes, ids, fks, neighbors, j, nodeids[fk]);
    }
    r, at := Ok(()), 0;
  }

  lemma JoinsLoaded(
    S: set<object>, nodes: seq<Account>, ids: seq<int>, fks: seq<int>, ns: seq<AccountGroup>,
    ts: seq<AccountGroupTree>)
    requires |nodes| == |ids| && |fks| == |ns| && JoinsDenote(S, ns, ts)
    requires JoinsHold(nodes, Handed(ids, fks, ns, |ns|))
    ensures AccountGroupsDenote(S, nodes, FanAll(ids, fks, ts))
  {
    HandedFully(ids, fks, ns);
    forall i | 0 <= i < |nodes|
      ensures JoinsDenote(S, nodes[i].AccountGroups, FanAll(ids, fks, ts)[i])
    {
      JoinsPicked(S, Is(ids[i]), fks, ns, ts);
    }
  }

  // ---- the two edges of a join row ------------------------------------------------------

  ghost predicate AccountsLinked(
    nodes: seq<AccountGroup>, keys: seq<Option<int>>, ids: seq<int>, ns: seq<Account>, j: nat)
    requires |nodes| == |keys| && j <= |ids| == |ns|
    reads nodes`Account
  {
    forall i :: 0 <= i < |nodes| ==> nodes[i].Account == AccountPointer(LinkedUpTo(keys[i], ids, ns, j))
  }

  method AssignAccount(ghost nodes: seq<AccountGroup>, group: seq<AccountGroup>, n: Account)
    requires forall x :: x in group ==> x in nodes
    modifies nodes`Account
    ensures forall x :: x in nodes ==> x.Account == if x in group then n else old(x.Account)
  {
    for m := 0 to |group|
      invariant forall x :: x in nodes ==> x.Account == if x in group[..m] then n else old(x.Account)
    {
      assert group[m] in group && group[..m + 1] == group[..m] + [group[m]];
      group[m].Account := n;
    }
    assert group[..|group|] == group;
  }

  method LinkAccount(
    nodes: seq<AccountGroup>, ghost keys: seq<Option<int>>, ghost ids: seq<int>, group: seq<AccountGroup>,
    ns: seq<Account>, j: nat)
    requires KeysOfNodes(nodes, keys) && j < |ids| == |ns|
    requires group == Sharing(nodes, keys, ids[j])
    requires AccountsLinked(nodes, keys, ids, ns, j)
    modifies nodes`Account
    ensures AccountsLinked(nodes, keys, ids, ns, j + 1)
  {
    SharingExactly(nodes, keys, ids[j]);
    AssignAccount(nodes, group, ns[j]);
  }

  method DistributeAccounts(
    nodes: seq<AccountGroup>, ghost keys: seq<Option<int>>, ghost ids: seq<int>, nodeids: map<int, seq<AccountGroup>>,
    neighbors: seq<Account>)
    returns (r: Outcome, ghost at: nat)
    requires KeysOfNodes(nodes, keys) && nodeids == KeyMap(nodes, keys)
    requires |ids| == |neighbors| && forall j :: 0 <= j < |ids| ==> ids[j] == IntOf(neighbors[j].fields, Id)
    requires forall i :: 0 <= i < |nodes| ==> nodes[i].Account == null
    modifies nodes`Account
    ensures r.Err? ==> at < |neighbors| && ids[at] !in nodeids
    ensures r.Ok? ==> AccountsLinked(nodes, keys, ids, neighbors, |neighbors|)
  {
    hide KeysOfNodes, KeyMap, Sharing;
    AsMany(nodes, keys);
    for j := 0 to |neighbors|
      invariant AccountsLinked(nodes, keys, ids, neighbors, j)
    {
      var id := IntOf(neighbors[j].fields, Id);
      if id !in nodeids {
        return Err(Returns(UnexpectedNode(id))), j;
      }
      KeyMapLookup(nodes, keys, id);
      LinkAccount(nodes, keys, ids, nodeids[id], neighbors, j);
    }
    r, at := Ok(()), 0;
  }

  ghost predicate JoinAccountsDenote(S: set<object>, nodes: seq<AccountGroup>, ts: seq<Option<AccountTree>>)
    reads S, nodes`Account
  {
    |nodes| == |ts| && forall i :: 0 <= i < |nodes| ==> ParentDenotes(S, nodes[i].Account, ts[i])
  }

  lemma AccountsLoaded(
    S: set<object>, nodes: seq<AccountGroup>, keys: seq<Option<int>>, ids: seq<int>, ns: seq<Account>,
    ts: seq<AccountTree>)
    requires |nodes| == |keys| && |ids| == |ns| && AccountsDenote(S, ns, ts)
    requires AccountsLinked(nodes, keys, ids, ns, |ns|)
    ensures JoinAccountsDenote(S, nodes, LinkAll(keys, ids, ts))
  {
    forall i | 0 <= i < |nodes|
      ensures ParentDenotes(S, nodes[i].Account, LinkAll(keys, ids, ts)[i])
    {
      LinkedFully(keys[i], ids, ns);
    }
  }

  ghost predicate GroupsLinked(nodes: seq<AccountGroup>, keys: seq<Option<int>>, ids: seq<int>, ns: seq<Entity>, j: nat)
    requires |nodes| == |keys| && j <= |ids| == |ns|
    reads nodes`Group
  {
    forall i :: 0 <= i < |nodes| ==> nodes[i].Group == EntityPointer(LinkedUpTo(keys[i], ids, ns, j))
  }

  method AssignOneGroup(ghost nodes: seq<AccountGroup>, group: seq<AccountGroup>, n: Entity)
    requires forall x :: x in group ==> x in nodes
    modifies nodes`Group
    ensures forall x :: x in nodes ==> x.Group == if x in group then n else old(x.Group)
  {
    for m := 0 to |group|
      invariant forall x :: x in nodes ==> x.Group == if x in group[..m] then n else old(x.Group)
    {
      assert group[m] in group && group[..m + 1] == group[..m] + [group[m]];
      group[m].Group := n;
    }
    assert group[..|group|] == group;
  }

  method LinkGroup(
    nodes: seq<AccountGroup>, ghost keys: seq<Option<int>>, ghost ids: seq<int>, group: seq<AccountGroup>,
    ns: seq<Entity>, j: nat)
    requires KeysOfNodes(nodes, keys) && j < |ids| == |ns|
    requires group == Sharing(nodes, keys, ids[j])
    requires GroupsLinked(nodes, keys, ids, ns, j)
    modifies nodes`Group
    ensures GroupsLinked(nodes, keys, ids, ns, j + 1)
  {
    SharingExactly(nodes, keys, ids[j]);
    AssignOneGroup(nodes, group, ns[j]);
  }

  method DistributeOneGroups(
    nodes: seq<AccountGroup>, ghost keys: seq<Option<int>>, ghost ids: seq<int>, nodeids: map<int, seq<AccountGroup>>,
    neighbors: seq<Entity>)
    returns (r: Outcome, ghost at: nat)
    requires KeysOfNodes(nodes, keys) && nodeids == KeyMap(nodes, keys)
    requires |ids| == |neighbors| && forall j :: 0 <= j < |ids| ==> ids[j] == IntOf(neighbors[j].fields, Id)
    requires forall i :: 0 <= i < |nodes| ==> nodes[i].Group == null
    modifies nodes`Group
    ensures r.Err? ==> at < |neighbors| && ids[at] !in nodeids
    ensures r.Ok? ==> GroupsLinked(nodes, keys, ids, neighbors, |neighbors|)
  {
    hide KeysOfNodes, KeyMap, Sharing;
    AsMany(nodes, keys);
    for j := 0 to |neighbors|
      invariant GroupsLinked(nodes, keys, ids, neighbors, j)
    {
      var id := IntOf(neighbors[j].fields, Id);
      if id !in nodeids {
        return Err(Returns(UnexpectedNode(id))), j;
      }
      KeyMapLookup(nodes, keys, id);
      LinkGroup(nodes, keys, ids, nodeids[id], neighbors, j);
    }
    r, at := Ok(()), 0;
  }

  ghost predicate OneGroupsDenote(nodes: seq<AccountGroup>, ts: seq<Option<Row>>)
    reads nodes`Group
  {
    |nodes| == |ts| && forall i :: 0 <= i < |nodes| ==> EntityDenotes(nodes[i].Group, ts[i])
  }

  lemma OneGroupsLoaded(nodes: seq<AccountGroup>, keys: seq<Option<int>>, ids: seq<int>, ns: seq<Entity>, ts: seq<Row>)
    requires |nodes| == |keys| && |ids| == |ns| && EntitiesDenote(ns, ts)
    requires GroupsLinked(nodes, keys, ids, ns, |ns|)
    ensures OneGroupsDenote(nodes, LinkAll(keys, ids, ts))
  {
    forall i | 0 <= i < |nodes|
      ensures EntityDenotes(nodes[i].Group, LinkAll(keys, ids, ts)[i])
    {
      LinkedDenote(keys[i], ids, ns, ts);
    }
  }

  // ---- loadGroup of a join row ----------------------------------------------------------

  lemma NoGroups(t: Table, q: EntityQ, nodes: seq<AccountGroup>, keys: seq<Option<int>>)
    requires Distinct(keys) == [] && |nodes| == |keys|
    requires forall i :: 0 <= i < |nodes| ==> nodes[i].Group == null
    ensures OneGroupsDenote(nodes, EntitiesFor(t, q, keys))
  {
    var sel := q.sel.Where(InValues(Id, Distinct(keys)));
    NoKeys(keys, Ints(Select(t.rows, sel), Id), EntityRows(t, sel));
  }

  method OneGroupNeighbors(
    ghost t: Table, ghost sel: Selection, nodes: seq<AccountGroup>, ghost keys: seq<Option<int>>,
    nodeids: map<int, seq<AccountGroup>>, neighbors: seq<Entity>)
    returns (r: Outcome)
    requires Id in t.columns && KeysOfNodes(nodes, keys) && nodeids == KeyMap(nodes, keys)
    requires EntitiesDenote(neighbors, EntityRows(t, sel.Where(InValues(Id, Distinct(keys)))))
    requires forall i :: 0 <= i < |nodes| ==> nodes[i].Group == null
    modifies nodes`Group
    ensures r.Ok? && OneGroupsDenote(nodes, EntitiesFor(t, EntityQ(sel, []), keys))
  {
    ghost var ids := EntityKeys(neighbors, Id);
    NeighborKeys(t, sel, Id, Distinct(keys), neighbors);
    ghost var at;
    r, at := DistributeOneGroups(nodes, keys, ids, nodeids, neighbors);
    if r.Err? {
      KeyMapLookup(nodes, keys, ids[at]);
    }
    OneGroupsLoaded(nodes, keys, ids, neighbors, EntityRows(t, sel.Where(InValues(Id, Distinct(keys)))));
  }

  // `keys` holds nodes[i].GroupID.
  method LoadGroup(t: Table, query: EntityQuery, nodes: seq<AccountGroup>, keys: seq<Option<int>>) returns (r: Outcome)
    requires Id in t.columns && query.joins == [] && KeysOfNodes(nodes, keys)
    requires forall i :: 0 <= i < |nodes| ==> nodes[i].Group == null
    modifies nodes`Group, query`predicates
    ensures Reports(r, EntityError(t, Some(old(query.Value())), keys))
    ensures r.Ok? ==> Some(query.Value()) == AfterEntities(Some(old(query.Value())), keys)
    ensures r.Ok? ==> OneGroupsDenote(nodes, EntitiesFor(t, old(query.Value()), keys))
  {
    hide EntityColumns, DecodeAll, InValues, FieldError, Select, Distinct, KeyMap, EntitiesFor, OneGroupsDenote;
    hide EntitiesDenote;
    ghost var q := query.Value();
    var ids, nodeids := IndexByKey(nodes, keys);
    if |ids| == 0 {
      NoGroups(t, q, nodes, keys);
      return Ok(());
    }
    query.Where(InValues(Id, ids));
    var neighbors;
    r, neighbors := EntitiesAll(query, t);
    if r.Err? {
      return;
    }
    r := OneGroupNeighbors(t, q.sel, nodes, keys, nodeids, neighbors);
  }
}
