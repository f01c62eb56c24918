// Leaf queries and the loaders whose neighbours have no edges of their own:
// groups, proxy and usage logs (backend/ent/account_query.go:627-719, 785-814).
module Loaders {
  import opened Lists
  import opened Rows
  import opened Entities
  import opened EagerSpec
  import opened Queries
  import opened Denotation
  import opened Distribution
  import opened GroupJoins

  type Outcome = Result<(), Stop>

  // The outcome of a step whose error is known.
  predicate Reports(r: Outcome, error: Option<Stop>) {
    if error.None? then r.Ok? else r == Err(error.value)
  }

  // ---- prepareQuery, querySpec and the scan loop ----------------------------------

  method PrepareQuery(fields: seq<Column>, columns: seq<Column>) returns (r: Outcome)
    ensures Reports(r, FieldError(fields, columns))
  {
    for i := 0 to |fields|
      invariant FieldError(fields[..i], columns).None?
    {
      assert fields[..i + 1][..i] == fields[..i];
      if fields[i] !in columns {
        FieldErrorPrefix(fields, columns, i + 1);
        return Err(Returns(InvalidField(fields[i])));
      }
    }
    assert fields[..|fields|] == fields;
    r := Ok(());
  }

  lemma {:induction false} FieldErrorPrefix(fields: seq<Column>, columns: seq<Column>, k: nat)
    requires k <= |fields| && FieldError(fields[..k], columns).Some?
    ensures FieldError(fields, columns) == FieldError(fields[..k], columns)
    decreases |fields|
  {
    if k < |fields| {
      var t := fields[..|fields| - 1];
      assert t[..k] == fields[..k];
      FieldErrorPrefix(t, columns, k);
    } else {
      assert fields[..k] == fields;
    }
  }

  // The id first, then the selected fields without it.
  method SelectColumns(fields: seq<Column>) returns (columns: seq<Column>)
    ensures columns == [Id] + Filter(NotId(), fields)
  {
    hide Filter;
    NothingFiltered(NotId());
    columns := [Id];
    for i := 0 to |fields|
      invariant columns == [Id] + Filter(NotId(), fields[..i])
    {
      FilterStep(NotId(), fields, i);
      if fields[i] != Id {
        columns := columns + [fields[i]];
      }
    }
    Whole(fields);
  }

  method EntitySpec(fields: seq<Column>, all: seq<Column>) returns (columns: seq<Column>)
    ensures columns == EntityColumns(all, fields)
  {
    columns := all;
    if |fields| > 0 {
      columns := SelectColumns(fields);
    }
  }

  method NewEntities(columns: seq<Column>, rows: seq<Row>) returns (nodes: seq<Entity>)
    ensures EntitiesDenote(nodes, DecodeAll(columns, rows))
  {
    nodes := [];
    for i := 0 to |rows|
      invariant |nodes| == i && forall k :: 0 <= k < i ==> nodes[k].fields == Decode(columns, rows[k])
    {
      var node := new Entity(Decode(columns, rows[i]));
      nodes := nodes + [node];
    }
  }

  function EntityRows(t: Table, sel: Selection): seq<Row> {
    DecodeAll(EntityColumns(t.columns, sel.fields), Select(t.rows, sel))
  }

  method EntitiesAll(query: EntityQuery, t: Table) returns (r: Outcome, nodes: seq<Entity>)
    requires query.joins == []
    ensures Reports(r, FieldError(query.ctx.Fields, t.columns))
    ensures r.Ok? ==> EntitiesDenote(nodes, EntityRows(t, query.Sel()))
  {
    nodes := [];
    r := PrepareQuery(query.ctx.Fields, t.columns);
    if r.Err? {
      return;
    }
    var columns := EntitySpec(query.ctx.Fields, t.columns);
    nodes := NewEntities(columns, Select(t.rows, query.Sel()));
  }

  // ---- decoded keys -----------------------------------------------------------------

  lemma DecodeKey(columns: seq<Column>, row: Row, c: Column)
    requires c in columns
    ensures KeyOf(Decode(columns, row), c) == KeyOf(row, c) && IntOf(Decode(columns, row), c) == IntOf(row, c)
  {
  }

  function EntityKeys(ns: seq<Entity>, c: Column): (r: seq<int>)
    ensures |r| == |ns| && forall i :: 0 <= i < |ns| ==> r[i] == IntOf(ns[i].fields, c)
  {
    seq(|ns|, i requires 0 <= i < |ns| => IntOf(ns[i].fields, c))
  }

  // The neighbours of a batch carry the keys of its rows, all of them requested.
  lemma NeighborKeys(t: Table, sel: Selection, c: Column, ids: seq<int>, ns: seq<Entity>)
    requires c in EntityColumns(t.columns, sel.fields)
    requires EntitiesDenote(ns, EntityRows(t, sel.Where(InValues(c, ids))))
    ensures EntityKeys(ns, c) == Ints(Select(t.rows, sel.Where(InValues(c, ids))), c)
    ensures forall j :: 0 <= j < |ns| ==> EntityKeys(ns, c)[j] in ids
  {
    hide Select, EntityColumns, Decode;
    var rows := Select(t.rows, sel.Where(InValues(c, ids)));
    var columns := EntityColumns(t.columns, sel.fields);
    BatchKeys(t.rows, sel, c, ids);
    forall j | 0 <= j < |ns|
      ensures IntOf(ns[j].fields, c) == IntOf(rows[j], c)
    {
      DecodeKey(columns, rows[j], c);
    }
  }

  // The scalar fields of a list of nodes.
  function NodeFields(nodes: seq<Account>): (r: seq<Row>)
    reads nodes`fields
    ensures |r| == |nodes| && forall i :: 0 <= i < |nodes| ==> r[i] == nodes[i].fields
  {
    if nodes == [] then [] else NodeFields(nodes[..|nodes| - 1]) + [nodes[|nodes| - 1].fields]
  }

  // ---- proxy ------------------------------------------------------------------------

  function EntityPointer(x: Option<Entity>): Entity? {
    if x.None? then null else x.value
  }

  ghost predicate ProxiesLinked(nodes: seq<Account>, keys: seq<Option<int>>, ids: seq<int>, ns: seq<Entity>, j: nat)
    requires |nodes| == |keys| && j <= |ids| == |ns|
    reads nodes`Proxy
  {
    forall i :: 0 <= i < |nodes| ==> nodes[i].Proxy == EntityPointer(LinkedUpTo(keys[i], ids, ns, j))
  }

  // The inner loop: assign(nodes[i], n) for the nodes that share n's id.
  method AssignProxy(ghost nodes: seq<Account>, group: seq<Account>, n: Entity)
    requires forall x :: x in group ==> x in nodes
    modifies nodes`Proxy
    ensures forall x :: x in nodes ==> x.Proxy == if x in group then n else old(x.Proxy)
  {
    for m := 0 to |group|
      invariant forall x :: x in nodes ==> x.Proxy == if x in group[..m] then n else old(x.Proxy)
    {
      assert group[m] in group && group[..m + 1] == group[..m] + [group[m]];
      group[m].Proxy := n;
    }
    assert group[..|group|] == group;
  }

  method LinkProxy(
    nodes: seq<Account>, ghost keys: seq<Option<int>>, ghost ids: seq<int>, group: seq<Account>, ns: seq<Entity>,
    j: nat)
    requires KeysOfNodes(nodes, keys) && j < |ids| == |ns|
    requires group == Sharing(nodes, keys, ids[j])
    requires ProxiesLinked(nodes, keys, ids, ns, j)
    modifies nodes`Proxy
    ensures ProxiesLinked(nodes, keys, ids, ns, j + 1)
  {
    SharingExactly(nodes, keys, ids[j]);
    AssignProxy(nodes, group, ns[j]);
  }

  method DistributeProxies(
    nodes: seq<Account>, ghost keys: seq<Option<int>>, nodeids: map<int, seq<Account>>, neighbors: seq<Entity>)
    returns (r: Outcome, ghost at: nat)
    requires KeysOfNodes(nodes, keys) && nodeids == KeyMap(nodes, keys)
    requires forall i :: 0 <= i < |nodes| ==> nodes[i].Proxy == null
    modifies nodes`Proxy
    ensures r.Err? ==> at < |neighbors| && EntityKeys(neighbors, Id)[at] !in nodeids
    ensures r.Ok? ==> ProxiesLinked(nodes, keys, EntityKeys(neighbors, Id), neighbors, |neighbors|)
  {
    hide KeysOfNodes, KeyMap, Sharing;
    AsMany(nodes, keys);
    ghost var ids := EntityKeys(neighbors, Id);
    for j := 0 to |neighbors|
      invariant ProxiesLinked(nodes, keys, ids, neighbors, j)
    {
      var id := neighbors[j].ID();
      if id !in nodeids {
        return Err(Returns(UnexpectedNode(id))), j;
      }
      KeyMapLookup(nodes, keys, id);
      LinkProxy(nodes, keys, ids, nodeids[id], neighbors, j);
    }
    r, at := Ok(()), 0;
  }

  lemma LinkedDenote(key: Option<int>, ids: seq<int>, ns: seq<Entity>, ts: seq<Row>)
    requires |ids| == |ns| && EntitiesDenote(ns, ts)
    ensures EntityDenotes(EntityPointer(LinkedUpTo(key, ids, ns, |ids|)), Linked(key, ids, ts))
  {
    LinkedFully(key, ids, ns);
  }

  lemma ProxiesLoaded(nodes: seq<Account>, keys: seq<Option<int>>, ids: seq<int>, ns: seq<Entity>, ts: seq<Row>)
    requires |nodes| == |keys| && |ids| == |ns| && EntitiesDenote(ns, ts)
    requires ProxiesLinked(nodes, keys, ids, ns, |ns|)
    ensures ProxiesDenote(nodes, LinkAll(keys, ids, ts))
  {
    forall i | 0 <= i < |nodes|
      ensures EntityDenotes(nodes[i].Proxy, LinkAll(keys, ids, ts)[i])
    {
      LinkedDenote(keys[i], ids, ns, ts);
    }
  }

  lemma NoKeys<T>(keys: seq<Option<int>>, ids: seq<int>, xs: seq<T>)
    requires Distinct(keys) == [] && |ids| == |xs|
    ensures forall i :: 0 <= i < |keys| ==> keys[i] == None
    ensures LinkAll(keys, ids, xs) == Repeat(|keys|, None)
  {
    DistinctMembers(keys);
    forall i | 0 <= i < |keys|
      ensures keys[i] == None
    {
      assert keys[i] in keys;
      assert forall k :: k !in Distinct(keys) ==> Some(k) !in keys;
    }
  }

  lemma NoProxies(t: Table, q: EntityQ, nodes: seq<Account>, keys: seq<Option<int>>)
    requires Distinct(keys) == [] && |nodes| == |keys|
    requires forall i :: 0 <= i < |nodes| ==> nodes[i].Proxy == null
    ensures ProxiesDenote(nodes, EntitiesFor(t, q, keys))
  {
    var sel := q.sel.Where(InValues(Id, Distinct(keys)));
    NoKeys(keys, Ints(Select(t.rows, sel), Id), EntityRows(t, sel));
  }

  // `keys` holds nodes[i].ProxyID.
  method LoadProxy(t: Table, query: EntityQuery, nodes: seq<Account>, keys: seq<Option<int>>) returns (r: Outcome)
    requires Id in t.columns && query.joins == [] && KeysOfNodes(nodes, keys)
    requires forall i :: 0 <= i < |nodes| ==> nodes[i].Proxy == null
    modifies nodes`Proxy, query`predicates
    ensures Reports(r, EntityError(t, Some(old(query.Value())), keys))
    ensures r.Ok? ==> Some(query.Value()) == AfterEntities(Some(old(query.Value())), keys)
    ensures r.Ok? ==> ProxiesDenote(nodes, EntitiesFor(t, old(query.Value()), keys))
  {
    hide InValues, FieldError, Select, Distinct, KeyMap, EntitiesFor, ProxiesDenote, EntitiesDenote, KeysOfNodes;
    hide EntityRows, Selection.Where;
    AsMany(nodes, keys);
    ghost var q := query.Value();
    var ids, nodeids := IndexByKey(nodes, keys);
    if |ids| == 0 {
      NoProxies(t, q, nodes, keys);
      return Ok(());
    }
    query.Where(InValues(Id, ids));
    var neighbors;
    r, neighbors := EntitiesAll(query, t);
    if r.Err? {
      return;
    }
    r := ProxyNeighbors(t, q.sel, nodes, keys, nodeids, neighbors);
  }

  // Distribution of the neighbours that a query for the keys has returned.
  method ProxyNeighbors(
    ghost t: Table, ghost sel: Selection, nodes: seq<Account>, ghost keys: seq<Option<int>>,
    nodeids: map<int, seq<Account>>, neighbors: seq<Entity>)
    returns (r: Outcome)
    requires Id in t.columns && KeysOfNodes(nodes, keys) && nodeids == KeyMap(nodes, keys)
    requires EntitiesDenote(neighbors, EntityRows(t, sel.Where(InValues(Id, Distinct(keys)))))
    requires forall i :: 0 <= i < |nodes| ==> nodes[i].Proxy == null
    modifies nodes`Proxy
    ensures r.Ok? && ProxiesDenote(nodes, EntitiesFor(t, EntityQ(sel, []), keys))
  {
    NeighborKeys(t, sel, Id, Distinct(keys), neighbors);
    ghost var at;
    r, at := DistributeProxies(nodes, keys, nodeids, neighbors);
    if r.Err? {
      KeyMapLookup(nodes, keys, EntityKeys(neighbors, Id)[at]);
    }
    ProxiesLoaded(nodes, keys, EntityKeys(neighbors, Id), neighbors,
        EntityRows(t, sel.Where(InValues(Id, Distinct(keys)))));
  }

  // ---- usage logs -------------------------------------------------------------------

  ghost predicate LogsHold(nodes: seq<Account>, lists: seq<seq<Entity>>)
    reads nodes`UsageLogs
  {
    |nodes| == |lists| && forall i :: 0 <= i < |nodes| ==> nodes[i].UsageLogs == lists[i]
  }

  // init(n) for every node.
  method InitLogs(nodes: seq<Account>)
    modifies nodes`UsageLogs
    ensures LogsHold(nodes, Repeat(|nodes|, []))
  {
    for i := 0 to |nodes|
      invariant forall k :: 0 <= k < i ==> nodes[k].UsageLogs == []
    {
      nodes[i].UsageLogs := [];
    }
  }

  // assign(node, n) for neighbour j.
  method AssignLog(
    nodes: seq<Account>, ghost ids: seq<int>, ghost fks: seq<int>, ns: seq<Entity>, j: nat, node: Account)
    requires |nodes| == |ids| && j < |fks| == |ns| && DistinctNodes(nodes)
    requires fks[j] in LastNodes(nodes, ids) && node == LastNodes(nodes, ids)[fks[j]]
    requires LogsHold(nodes, Handed(ids, fks, ns, j))
    modifies nodes`UsageLogs
    ensures LogsHold(nodes, Handed(ids, fks, ns, j + 1))
  {
    OwnerIndex(nodes, ids, fks[j]);
    node.UsageLogs := node.UsageLogs + [ns[j]];
  }

  method DistributeLogs(
    nodes: seq<Account>, ghost ids: seq<int>, ghost fks: seq<int>, nodeids: map<int, Account>, neighbors: seq<Entity>)
    returns (r: Outcome, ghost at: nat)
    requires |ids| == |nodes| && nodeids == LastNodes(nodes, ids) && DistinctNodes(nodes)
    requires |fks| == |neighbors| && forall j :: 0 <= j < |fks| ==> fks[j] == IntOf(neighbors[j].fields, AccountId)
    requires LogsHold(nodes, Repeat(|nodes|, []))
    modifies nodes`UsageLogs
    ensures r.Err? ==> at < |neighbors| && fks[at] !in nodeids
    ensures r.Ok? ==> LogsHold(nodes, Handed(ids, fks, neighbors, |neighbors|))
  {
    hide DistinctNodes, LastNodes, Handed;
    NothingHanded(ids, fks, neighbors);
    hide LastNodes, DistinctNodes;
    for j := 0 to |neighbors|
      invariant LogsHold(nodes, Handed(ids, fks, neighbors, j))
    {
      var fk := IntOf(neighbors[j].fields, AccountId);
      if fk !in nodeids {
        return Err(Returns(UnexpectedNode(fk))), j;
      }
      AssignLog(nodes, ids, fks, neighbors, j, nodeids[fk]);
    }
    r, at := Ok(()), 0;
  }

  lemma LogsLoaded(nodes: seq<Account>, ids: seq<int>, fks: seq<int>, ns: seq<Entity>, ts: seq<Row>)
    requires |nodes| == |ids| && |fks| == |ns| && EntitiesDenote(ns, ts)
    requires LogsHold(nodes, Handed(ids, fks, ns, |ns|))
    ensures LogsDenote(nodes, FanAll(ids, fks, ts))
  {
    HandedFully(ids, fks, ns);
    forall i | 0 <= i < |nodes|
      ensures EntitiesDenote(nodes[i].UsageLogs, FanAll(ids, fks, ts)[i])
    {
      EntitiesPicked(Is(ids[i]), fks, ns, ts);
    }
  }

  lemma FieldSelected(all: seq<Column>, sel: Selection, c: Column)
    requires c in all && c != Id
    ensures c in EntityColumns(all, sel.WithField(c).fields)
  {
    if sel.fields != [] {
      FilterKeeps(AppendOnce(sel.fields, c), c);
    }
  }

  lemma FilterKeeps(fields: seq<Column>, c: Column)
    requires c in fields && c != Id
    ensures c in Filter(NotId(), fields)
  {
    FilterMembers(NotId(), fields);
  }

  // Distribution of the neighbours that a query for the ids has returned.
  method LogNeighbors(
    ghost t: Table, ghost sel: Selection, nodes: seq<Account>, ghost ids: seq<int>, nodeids: map<int, Account>,
    neighbors: seq<Entity>)
    returns (r: Outcome)
    requires AccountId in EntityColumns(t.columns, sel.fields)
    requires |ids| == |nodes| && nodeids == LastNodes(nodes, ids) && DistinctNodes(nodes)
    requires EntitiesDenote(neighbors, EntityRows(t, sel.Where(InValues(AccountId, ids))))
    requires LogsHold(nodes, Repeat(|nodes|, []))
    modifies nodes`UsageLogs
    ensures r.Ok?
    ensures var rows := Select(t.rows, sel.Where(InValues(AccountId, ids)));
            LogsDenote(nodes, FanAll(ids, Ints(rows, AccountId), DecodeAll(EntityColumns(t.columns, sel.fields), rows)))
  {
    NeighborKeys(t, sel, AccountId, ids, neighbors);
    ghost var at;
    r, at := DistributeLogs(nodes, ids, EntityKeys(neighbors, AccountId), nodeids, neighbors);
    if r.Err? {
      LastNodesLookup(nodes, ids, EntityKeys(neighbors, AccountId)[at]);
    }
    LogsLoaded(nodes, ids, EntityKeys(neighbors, AccountId), neighbors,
        EntityRows(t, sel.Where(InValues(AccountId, ids))));
  }

  function LogSelection(sel: Selection, ids: seq<int>): Selection {
    sel.WithField(AccountId).Where(InValues(AccountId, ids))
  }

  // The subquery restricted to the nodes, and run.
  method RequestLogs(t: Table, query: EntityQuery, ids: seq<int>) returns (r: Outcome, neighbors: seq<Entity>)
    requires query.joins == []
    modifies query`predicates, query.ctx
    ensures query.Value() == EntityQ(LogSelection(old(query.Sel()), ids), [])
    ensures Reports(r, FieldError(LogSelection(old(query.Sel()), ids).fields, t.columns))
    ensures r.Ok? ==> EntitiesDenote(neighbors, EntityRows(t, LogSelection(old(query.Sel()), ids)))
  {
    hide InValues, FieldError, AppendOnce, EntityColumns, Select, DecodeAll, EntitiesDenote;
    query.AddField(AccountId);
    query.Where(InValues(AccountId, ids));
    r, neighbors := EntitiesAll(query, t);
  }

  // `ids` holds nodes[i].ID.
  method LoadUsageLogs(st: Store, query: EntityQuery, nodes: seq<Account>, ids: seq<int>) returns (r: Outcome)
    requires AccountId in st.usageLogs.columns && query.joins == [] && |ids| == |nodes| && DistinctNodes(nodes)
    modifies nodes`UsageLogs, query`predicates, query.ctx
    ensures Reports(r, LogsError(st, Some(old(query.Value()))))
    ensures query.Value() == EntityQ(LogSelection(old(query.Sel()), ids), [])
    ensures r.Ok? ==> LogsDenote(nodes, UsageLogsFor(st, old(query.Value()), ids))
  {
    hide InValues, EntityColumns, FieldError, Select, LogsDenote, DecodeAll, FanAll, DistinctNodes, LastNodes;
    hide EntitiesDenote;
    ghost var sel := query.Sel();
    FieldSelected(st.usageLogs.columns, sel, AccountId);
    var fks, nodeids := IndexById(nodes, ids);
    InitLogs(nodes);
    var neighbors;
    r, neighbors := RequestLogs(st.usageLogs, query, fks);
    if r.Ok? {
      r := LogNeighbors(st.usageLogs, sel.WithField(AccountId), nodes, ids, nodeids, neighbors);
    }
  }

  // ---- groups -----------------------------------------------------------------------

  ghost predicate GroupsHold(nodes: seq<Account>, lists: seq<seq<Entity>>)
    reads nodes`Groups
  {
    |nodes| == |lists| && forall i :: 0 <= i < |nodes| ==> nodes[i].Groups == lists[i]
  }

  method InitGroups(nodes: seq<Account>)
    modifies nodes`Groups
    ensures GroupsHold(nodes, Repeat(|nodes|, []))
  {
    for i := 0 to |nodes|
      invariant forall k :: 0 <= k < i ==> nodes[k].Groups == []
    {
      nodes[i].Groups := [];
    }
  }

  // After i rows: the set of accounts that each group waits for, and a group node
  // for the first row of each group.
  ghost predicate Collected(
    columns: seq<Column>, pairs: seq<(int, Row)>, byID: map<int, Account>, neighbors: seq<Entity>,
    nids: map<int, set<Account>>, i: nat)
    requires i <= |pairs| && forall o :: o in Outs(pairs) ==> o in byID
  {
    var gids := Ints(Ins(pairs), Id);
    && nids == NodeSets(byID, Outs(pairs), gids, i)
    && EntitiesDenote(neighbors, At(DecodeAll(columns, Ins(pairs)), Firsts(gids[..i])))
  }

  // The Assign callback of the join for row i.
  method CollectRow(
    columns: seq<Column>, ghost pairs: seq<(int, Row)>, byID: map<int, Account>, neighbors: seq<Entity>,
    nids: map<int, set<Account>>, ghost i: nat, outValue: int, inValue: int, row: Row)
    returns (neighbors': seq<Entity>, nids': map<int, set<Account>>)
    requires i < |pairs| && (forall o :: o in Outs(pairs) ==> o in byID) && outValue in byID
    requires pairs[i] == (outValue, row) && inValue == IntOf(row, Id)
    requires Collected(columns, pairs, byID, neighbors, nids, i)
    ensures Collected(columns, pairs, byID, neighbors', nids', i + 1)
  {
    hide EntitiesDenote, Firsts, At, AddNode, Decode;
    ghost var gids, decoded := Ints(Ins(pairs), Id), DecodeAll(columns, Ins(pairs));
    FirstsStep(gids, i);
    NodeSetsKeys(byID, Outs(pairs), gids, i);
    neighbors', nids' := neighbors, AddNode(nids, inValue, byID[outValue]);
    if inValue !in nids {
      var node := new Entity(Decode(columns, row));
      DenoteSnoc(neighbors, decoded, Firsts(gids[..i]), node, i);
      neighbors' := neighbors + [node];
    }
  }

  // The callback over all rows: it panics at a second value that is no integer holder.
  method CollectGroups(columns: seq<Column>, rows: seq<JoinedRow>, byID: map<int, Account>)
    returns (r: Outcome, neighbors: seq<Entity>, nids: map<int, set<Account>>)
    requires columns != [] && forall o :: o in Outs(Pairs(rows)) ==> o in byID
    requires forall i :: 0 <= i < |rows| && AssertsInt(JoinedValues(columns, rows[i])) ==> ReadsPair(columns, rows[i])
    ensures r.Ok? <==> forall i :: 0 <= i < |rows| ==> AssertsInt(JoinedValues(columns, rows[i]))
    ensures r.Err? ==> r == Err(Panics)
    ensures r.Ok? ==> Collected(columns[1..], Pairs(rows), byID, neighbors, nids, |rows|)
  {
    hide JoinedValues, AssertsInt, Collected, ReadsPair, Owner, Outs, Pairs, OutValue, InValue;
    ghost var pairs := Pairs(rows);
    neighbors, nids := [], map[];
    NoneCollected(columns[1..], pairs, byID);
    for i := 0 to |rows|
      invariant forall k :: 0 <= k < i ==> AssertsInt(JoinedValues(columns, rows[k]))
      invariant Collected(columns[1..], pairs, byID, neighbors, nids, i)
    {
      var values := JoinedValues(columns, rows[i]);
      if !AssertsInt(values) {
        return Err(Panics), neighbors, nids;
      }
      ReadsRow(columns, rows[i]);
      assert Outs(pairs)[i] in Outs(pairs);
      neighbors, nids := CollectRow(columns[1..], pairs, byID, neighbors, nids, i, OutValue(values), InValue(values),
          rows[i].1);
    }
    r := Ok(());
  }

  lemma NoneCollected(columns: seq<Column>, pairs: seq<(int, Row)>, byID: map<int, Account>)
    requires forall o :: o in Outs(pairs) ==> o in byID
    ensures Collected(columns, pairs, byID, [], map[], 0)
  {
  }

  lemma FirstsStep(gids: seq<int>, i: nat)
    requires i < |gids|
    ensures Firsts(gids[..i + 1]) == if gids[i] in gids[..i] then Firsts(gids[..i]) else Firsts(gids[..i]) + [i]
  {
    assert gids[..i + 1][..i] == gids[..i];
  }

  lemma DenoteSnoc(xs: seq<Entity>, ts: seq<Row>, ps: seq<nat>, x: Entity, i: nat)
    requires i < |ts| && x.fields == ts[i] && forall j :: j in ps ==> j < |ts|
    requires EntitiesDenote(xs, At(ts, ps))
    ensures EntitiesDenote(xs + [x], At(ts, ps + [i]))
  {
  }

  // values[0].(*sql.NullInt64).Int64.
  function OutValue(values: seq<Holder>): int
    requires values != [] && values[0].NullInt64?
  {
    values[0].i
  }

  // values[1].(*sql.NullInt64).Int64.
  function InValue(values: seq<Holder>): int
    requires AssertsInt(values)
  {
    values[1].i
  }

  // The first two values are the account and the group that the row joins.
  predicate ReadsPair(columns: seq<Column>, row: JoinedRow) {
    var values := JoinedValues(columns, row);
    && values != [] && values[0].NullInt64? && OutValue(values) == Owner(row)
    && (AssertsInt(values) ==> InValue(values) == IntOf(row.1, Id))
  }

  lemma ReadsRow(columns: seq<Column>, row: JoinedRow)
    requires ReadsPair(columns, row) && AssertsInt(JoinedValues(columns, row))
    ensures var values := JoinedValues(columns, row);
            values != [] && values[0].NullInt64? && OutValue(values) == Owner(row)
              && InValue(values) == IntOf(row.1, Id)
  {
  }

  // A row of k + 1 joins whose second value is an integer is a row of a single join.
  lemma PairsRead(k: nat, columns: seq<Column>, row: JoinedRow)
    requires LeadsWithId(columns) && |row.0| == k + 1 && AssertsInt(JoinedValues(Prefixed(k + 1, columns), row))
    ensures k == 0 && Prefixed(k + 1, columns)[1..] == columns && ReadsPair(Prefixed(k + 1, columns), row)
  {
    AssertsIntIff(k, columns, row);
    SecondColumn(k, columns);
  }

  // assign(kn, n) for every account of a set, in any order.
  method AssignGroup(ghost nodes: seq<Account>, kns: set<Account>, n: Entity)
    requires forall x :: x in kns ==> x in nodes
    modifies nodes`Groups
    ensures forall x :: x in nodes ==> x.Groups == if x in kns then old(x.Groups) + [n] else old(x.Groups)
  {
    var todo := kns;
    while todo != {}
      invariant todo <= kns
      invariant forall x :: x in nodes ==> x.Groups == if x in kns - todo then old(x.Groups) + [n] else old(x.Groups)
      decreases todo
    {
      var kn :| kn in todo;
      kn.Groups := kn.Groups + [n];
      todo := todo - {kn};
    }
  }

  ghost predicate Within(nids: map<int, set<Account>>, nodes: seq<Account>) {
    forall g, x :: g in nids && x in nids[g] ==> x in nodes
  }

  // The inner loop for neighbour j.
  method SpreadGroup(
    ghost nodes: seq<Account>, nids: map<int, set<Account>>, ghost keys: seq<int>, ns: seq<Entity>, j: nat)
    requires Within(nids, nodes) && j < |ns| && keys == EntityKeys(ns, Id) && keys[j] in nids
    requires GroupsHold(nodes, Spread(nodes, nids, keys, ns, j))
    modifies nodes`Groups
    ensures GroupsHold(nodes, Spread(nodes, nids, keys, ns, j + 1))
  {
    AssignGroup(nodes, nids[ns[j].ID()], ns[j]);
  }

  lemma NothingSpread(nodes: seq<Account>, nids: map<int, set<Account>>, keys: seq<int>, ns: seq<Entity>)
    requires |keys| == |ns|
    ensures Spread(nodes, nids, keys, ns, 0) == Repeat(|nodes|, [])
  {
  }

  method DistributeGroups(nodes: seq<Account>, nids: map<int, set<Account>>, neighbors: seq<Entity>)
    returns (r: Outcome, ghost at: nat)
    requires Within(nids, nodes)
    requires GroupsHold(nodes, Repeat(|nodes|, []))
    modifies nodes`Groups
    ensures r.Err? ==> at < |neighbors| && EntityKeys(neighbors, Id)[at] !in nids
    ensures r.Ok? ==> GroupsHold(nodes, Spread(nodes, nids, EntityKeys(neighbors, Id), neighbors, |neighbors|))
  {
    hide Within, Spread, GroupsHold;
    ghost var keys := EntityKeys(neighbors, Id);
    NothingSpread(nodes, nids, keys, neighbors);
    for j := 0 to |neighbors|
      invariant GroupsHold(nodes, Spread(nodes, nids, keys, neighbors, j))
    {
      var id := neighbors[j].ID();
      if id !in nids {
        return Err(Returns(UnexpectedNode(id))), j;
      }
      SpreadGroup(nodes, nids, keys, neighbors, j);
    }
    r, at := Ok(()), 0;
  }

  lemma GroupsLoaded(
    nodes: seq<Account>, ids: seq<int>, outs: seq<int>, gids: seq<int>, ns: seq<Entity>, rows: seq<Row>)
    requires |nodes| == |ids| && |outs| == |gids| == |rows|
    requires EntitiesDenote(ns, At(rows, Firsts(gids)))
    requires GroupsHold(nodes, Gathered(ids, outs, gids, At(gids, Firsts(gids)), ns, |ns|))
    ensures GroupsDenote(nodes, GatherAll(ids, outs, gids, rows))
  {
    var keys := At(gids, Firsts(gids));
    GatheredFully(ids, outs, gids, rows);
    forall i | 0 <= i < |nodes|
      ensures EntitiesDenote(nodes[i].Groups, GatherAll(ids, outs, gids, rows)[i])
    {
      ReceivedFully(Owns(ids, i), MemberOf(outs, gids, ids[i]), keys, ns);
      EntitiesPicked(MemberOf(outs, gids, ids[i]), keys, ns, At(rows, Firsts(gids)));
    }
  }

  // The store honours the filter of the join: every row belongs to a node.
  lemma JoinHonours<N>(st: Store, q: EntityQ, nodes: seq<N>, ids: seq<int>)
    requires |nodes| == |ids|
    ensures forall o :: o in Outs(Pairs(JoinResult(st, q, ids))) ==> o in LastNodes(nodes, ids)
  {
    hide JoinResult;
    ResultShape(st, q, ids);
    var rows := JoinResult(st, q, ids);
    forall j | 0 <= j < |rows|
      ensures Owner(rows[j]) in LastNodes(nodes, ids)
    {
      assert rows[j] in rows;
      LastNodesLookup(nodes, ids, Owner(rows[j]));
    }
  }

  lemma {:induction false} SetsWithin(nodes: seq<Account>, ids: seq<int>, outs: seq<int>, gids: seq<int>)
    requires |nodes| == |ids| && |outs| == |gids|
    requires forall o :: o in outs ==> o in LastNodes(nodes, ids)
    ensures Within(NodeSets(LastNodes(nodes, ids), outs, gids, |gids|), nodes)
  {
    var nids := NodeSets(LastNodes(nodes, ids), outs, gids, |gids|);
    forall g | g in nids
      ensures forall x :: x in nids[g] ==> x in nodes
    {
      NodeSetsWithin(nodes, ids, outs, gids, |gids|, g);
    }
  }

  // The group nodes carry the ids of the groups' first rows.
  lemma GroupKeys(columns: seq<Column>, rows: seq<Row>, ns: seq<Entity>)
    requires Id in columns
    requires EntitiesDenote(ns, At(DecodeAll(columns, rows), Firsts(Ints(rows, Id))))
    ensures EntityKeys(ns, Id) == At(Ints(rows, Id), Firsts(Ints(rows, Id)))
    ensures forall k :: k in EntityKeys(ns, Id) ==> k in Ints(rows, Id)
  {
    var firsts := Firsts(Ints(rows, Id));
    forall j | 0 <= j < |ns|
      ensures EntityKeys(ns, Id)[j] == Ints(rows, Id)[firsts[j]]
    {
      assert firsts[j] in firsts;
      DecodeKey(columns, rows[firsts[j]], Id);
    }
  }

  // Distribution of the rows of the join, in whatever order they come.
  method SpreadGroups(
    ghost columns: seq<Column>, ghost pairs: seq<(int, Row)>, nodes: seq<Account>, ghost ids: seq<int>,
    ghost byID: map<int, Account>, neighbors: seq<Entity>, nids: map<int, set<Account>>)
    returns (r: Outcome)
    requires Id in columns && |nodes| == |ids| && DistinctNodes(nodes) && byID == LastNodes(nodes, ids)
    requires forall o :: o in Outs(pairs) ==> o in byID
    requires Collected(columns, pairs, byID, neighbors, nids, |pairs|)
    requires GroupsHold(nodes, Repeat(|nodes|, []))
    modifies nodes`Groups
    ensures r.Ok?
    ensures GroupsDenote(nodes, GatherAll(ids, Outs(pairs), Ints(Ins(pairs), Id), DecodeAll(columns, Ins(pairs))))
  {
    hide DecodeAll, GroupsDenote, GatherAll, DistinctNodes;
    ghost var outs, gids, rows := Outs(pairs), Ints(Ins(pairs), Id), DecodeAll(columns, Ins(pairs));
    assert gids[..|gids|] == gids;
    GroupKeys(columns, Ins(pairs), neighbors);
    SetsWithin(nodes, ids, outs, gids);
    ghost var at;
    r, at := DistributeGroups(nodes, nids, neighbors);
    NodeSetsKeys(byID, outs, gids, |gids|);
    SpreadIsGathered(nodes, ids, outs, gids, EntityKeys(neighbors, Id), neighbors, |neighbors|);
    GroupsLoaded(nodes, ids, outs, gids, neighbors, rows);
  }

  // The subquery joined with the nodes, and run: the columns and the rows of its result.
  method RequestGroups(st: Store, query: EntityQuery, ids: seq<int>)
    returns (r: Outcome, columns: seq<Column>, rows: seq<JoinedRow>)
    modifies query`joins
    ensures Reports(r, FieldError(query.ctx.Fields, st.groups.columns))
    ensures query.Value() == old(query.Value()).(joins := old(query.joins) + [ids])
    ensures r.Ok? ==> rows == JoinResult(st, old(query.Value()), ids)
    ensures r.Ok? ==> columns == JoinedColumns(st, old(query.Value()))
  {
    hide FieldError, JoinedBy, Sift, EntityColumns, Prefixed;
    columns, rows := [], [];
    query.JoinAccounts(ids);
    r := PrepareQuery(query.ctx.Fields, st.groups.columns);
    if r.Ok? {
      var selected := EntitySpec(query.ctx.Fields, st.groups.columns);
      columns := Prefixed(|query.joins|, selected);
      rows := Page(query.ctx.Limit, query.ctx.Offset,
          JoinedBy(st.accountGroups.rows, Sift(st.groups.rows, query.Sel()), query.joins));
    }
  }

  lemma IdSelected(all: seq<Column>, fields: seq<Column>)
    requires Id in all
    ensures Id in EntityColumns(all, fields)
  {
  }

  // What the callback may rely on for the rows of a result.
  lemma ResultReads(st: Store, q: EntityQ, ids: seq<int>)
    requires LeadsWithId(st.groups.columns)
    ensures var columns, rows := JoinedColumns(st, q), JoinResult(st, q, ids);
            && columns != []
            && forall i :: 0 <= i < |rows| && AssertsInt(JoinedValues(columns, rows[i])) ==>
                 ReadsPair(columns, rows[i]) && columns[1..] == EntityColumns(st.groups.columns, q.sel.fields)
  {
    hide JoinResult, JoinedValues, AssertsInt, ReadsPair, EntityColumns;
    var selected := EntityColumns(st.groups.columns, q.sel.fields);
    var columns, rows := JoinedColumns(st, q), JoinResult(st, q, ids);
    IdFirst(st.groups.columns, q.sel.fields);
    ResultShape(st, q, ids);
    SecondColumn(|q.joins|, selected);
    forall i | 0 <= i < |rows| && AssertsInt(JoinedValues(columns, rows[i]))
      ensures ReadsPair(columns, rows[i]) && columns[1..] == selected
    {
      assert rows[i] in rows;
      PairsRead(|q.joins|, selected, rows[i]);
    }
  }

  lemma NoneDecoded(
    columns: seq<Column>, columns': seq<Column>, pairs: seq<(int, Row)>, byID: map<int, Account>,
    neighbors: seq<Entity>, nids: map<int, set<Account>>)
    requires pairs == [] && Collected(columns, pairs, byID, neighbors, nids, 0)
    ensures Collected(columns', pairs, byID, neighbors, nids, 0)
  {
  }

  // The callback on every row of the result.
  method RunCallback(
    st: Store, ghost q: EntityQ, columns: seq<Column>, rows: seq<JoinedRow>, byID: map<int, Account>,
    ghost ids: seq<int>)
    returns (r: Outcome, neighbors: seq<Entity>, nids: map<int, set<Account>>)
    requires LeadsWithId(st.groups.columns) && columns == JoinedColumns(st, q) && rows == JoinResult(st, q, ids)
    requires forall o :: o in Outs(Pairs(rows)) ==> o in byID
    ensures Reports(r, if JoinPanics(st, q, ids) then Some(Panics) else None)
    ensures r.Ok? ==> Collected(EntityColumns(st.groups.columns, q.sel.fields), Pairs(rows), byID, neighbors, nids,
                |rows|)
  {
    hide JoinResult, JoinedColumns, JoinedValues, AssertsInt, ReadsPair, EntityColumns, Collected;
    ResultReads(st, q, ids);
    r, neighbors, nids := CollectGroups(columns, rows, byID);
    if r.Ok? && rows != [] {
      assert AssertsInt(JoinedValues(columns, rows[0]));
    } else if r.Ok? {
      NoneDecoded(columns[1..], EntityColumns(st.groups.columns, q.sel.fields), Pairs(rows), byID, neighbors, nids);
    }
  }

  // `ids` holds nodes[i].ID.
  method LoadGroups(st: Store, query: EntityQuery, nodes: seq<Account>, ids: seq<int>) returns (r: Outcome)
    requires LeadsWithId(st.groups.columns) && |ids| == |nodes| && DistinctNodes(nodes)
    modifies nodes`Groups, query`joins
    ensures Reports(r, GroupsErrorFor(st, old(query.Value()), ids))
    ensures query.Value() == old(query.Value()).(joins := old(query.joins) + [ids])
    ensures r.Ok? ==> GroupsDenote(nodes, GroupsFor(st, old(query.Value()), ids))
  {
    hide JoinPanics, JoinResult, JoinedColumns, FieldError, GroupsDenote, GatherAll, DecodeAll, EntityColumns;
    hide DistinctNodes;
    hide LastNodes, Collected;
    ghost var q := query.Value();
    var edgeIDs, byID := IndexById(nodes, ids);
    InitGroups(nodes);
    var columns, rows;
    r, columns, rows := RequestGroups(st, query, edgeIDs);
    if r.Ok? {
      JoinHonours(st, q, nodes, ids);
      var neighbors, nids;
      r, neighbors, nids := RunCallback(st, q, columns, rows, byID, ids);
      if r.Ok? {
        IdSelected(st.groups.columns, q.sel.fields);
        r := SpreadGroups(EntityColumns(st.groups.columns, q.sel.fields), Pairs(rows), nodes, ids, byID, neighbors,
            nids);
      }
    }
  }
}
