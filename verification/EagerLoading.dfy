// Running a query tree: sqlAll of accounts and of join rows, and the loaders
// whose neighbours are queries of their own (backend/ent/account_query.go:550-625,
// 720-784, 815-844; backend/ent/accountgroup_query.go:334-436).
module EagerLoading {
  import opened Lists
  import opened Rows
  import opened Entities
  import opened EagerSpec
  import opened Queries
  import opened Denotation
  import opened Distribution
  import opened Loaders
  import opened NodeDistribution

  // ---- loadParent -----------------------------------------------------------------------

  // The neighbours of a batch of accounts carry the keys of its rows.
  lemma AccountKeys(st: Store, sel: Selection, e: EdgesQ, rows: seq<Row>, S: set<object>, ns: seq<Account>, c: Column)
    requires AccountsDenote(S, ns, Loaded(st, sel.fields, e, rows))
    requires c in AccountColumns(st.accounts.columns, sel.fields, e.proxy.Some?, e.parent.Some?)
    ensures |ns| == |rows|
    ensures forall j :: 0 <= j < |ns| ==>
              KeyOf(ns[j].fields, c) == KeyOf(rows[j], c) && IntOf(ns[j].fields, c) == IntOf(rows[j], c)
  {
    forall j | 0 <= j < |ns|
      ensures KeyOf(ns[j].fields, c) == KeyOf(rows[j], c) && IntOf(ns[j].fields, c) == IntOf(rows[j], c)
    {
      assert AccountDenotes(S, ns[j], LoadedNode(st, sel.fields, e, rows, j));
      DecodeKey(AccountColumns(st.accounts.columns, sel.fields, e.proxy.Some?, e.parent.Some?), rows[j], c);
    }
  }

  lemma IdAlwaysSelected(st: Store, fields: seq<Column>, withProxy: bool, withParent: bool)
    requires WellTyped(st)
    ensures Id in AccountColumns(st.accounts.columns, fields, withProxy, withParent)
  {
  }

  function ParentSelection(sel: Selection, keys: seq<Option<int>>): Selection {
    sel.Where(InValues(Id, Distinct(keys)))
  }

  lemma AccountsByKey(st: Store, q: AccountQ, keys: seq<Option<int>>)
    ensures var rows := Select(st.accounts.rows, ParentSelection(q.sel, keys));
            AccountsFor(st, q, keys) == LinkAll(keys, Ints(rows, Id), Loaded(st, q.sel.fields, q.edges, rows))
  {
  }

  // Distribution of the parents that a query for the keys has returned.
  method ParentNeighbors(
    ghost st: Store, ghost q: AccountQ, ghost S: set<object>, nodes: seq<Account>, ghost keys: seq<Option<int>>,
    nodeids: map<int, seq<Account>>, neighbors: seq<Account>)
    returns (r: Outcome)
    requires WellTyped(st) && KeysOfNodes(nodes, keys) && nodeids == KeyMap(nodes, keys)
    requires AccountsDenote(S, neighbors,
                 Loaded(st, q.sel.fields, q.edges, Select(st.accounts.rows, ParentSelection(q.sel, keys))))
    requires forall i :: 0 <= i < |nodes| ==> nodes[i].Parent == null && nodes[i] !in S
    modifies nodes`Parent
    ensures r.Ok? && ParentsDenote(S, nodes, AccountsFor(st, q, keys))
  {
    hide Loaded, AccountsDenote, Select, ParentsDenote, JoinAccountsDenote, KeyMap, Distinct, WellTyped;
    hide AccountColumns, InValues, LinkAll, KeysOfNodes, AccountsFor;
    AsMany(nodes, keys);
    AccountsByKey(st, q, keys);
    ghost var rows := Select(st.accounts.rows, ParentSelection(q.sel, keys));
    ghost var ids := Ints(rows, Id);
    IdAlwaysSelected(st, q.sel.fields, q.edges.proxy.Some?, q.edges.parent.Some?);
    AccountKeys(st, q.sel, q.edges, rows, S, neighbors, Id);
    ghost var at;
    r, at := DistributeParents(nodes, keys, ids, nodeids, neighbors);
    if r.Err? {
      BatchKeys(st.accounts.rows, q.sel, Id, Distinct(keys));
      KeyMapLookup(nodes, keys, ids[at]);
    }
    ParentsLoaded(S, nodes, keys, ids, neighbors, Loaded(st, q.sel.fields, q.edges, rows));
  }

  lemma NoParents(st: Store, q: AccountQ, nodes: seq<Account>, keys: seq<Option<int>>)
    requires Distinct(keys) == [] && |nodes| == |keys|
    requires forall i :: 0 <= i < |nodes| ==> nodes[i].Parent == null
    ensures ParentsDenote({}, nodes, AccountsFor(st, q, keys))
  {
    var rows := Select(st.accounts.rows, ParentSelection(q.sel, keys));
    NoKeys(keys, Ints(rows, Id), Loaded(st, q.sel.fields, q.edges, rows));
  }

  // The subquery restricted to the ids, and run.
  method RequestAccounts(st: Store, query: AccountQuery, ids: seq<int>)
    returns (r: Outcome, neighbors: seq<Account>, ghost S: set<object>)
    requires WellTyped(st) && query.Valid()
    modifies query.Repr()
    ensures fresh(S)
    ensures Reports(r, RunError(st, old(query.Sel()).Where(InValues(Id, ids)), old(query.Edges())))
    ensures r.Ok? ==> Requested(st, query, old(query.Sel()).Where(InValues(Id, ids)), old(query.Edges()), S, neighbors)
    ensures r.Ok? ==> query.Subs == old(query.Subs)
    decreases query.Repr(), 5
  {
    hide InValues, WellTyped, RunError, Select, Loaded, AccountsDenote, AfterEdges, AppendOnce, AccountQuery.Valid;
    hide AccountQuery.Separate, AccountQuery.Edges;
    OutsideSubs(query);
    query.Where(InValues(Id, ids));
    r, neighbors, S := AccountsAll(st, query);
  }

  // A successful run of `query` as selection sel with edges e.
  ghost predicate Requested(st: Store, query: AccountQuery, sel: Selection, e: EdgesQ, S: set<object>, ns: seq<Account>)
    reads query, query.ctx, query.Subs, S
  {
    && query.Valid() && query.Value() == AfterRun(st, sel, e)
    && AccountsDenote(S, ns, Loaded(st, sel.fields, e, Select(st.accounts.rows, sel)))
  }

  // The part of loadParent that runs when some node has a key.
  method LoadKeys(
    st: Store, query: AccountQuery, nodes: seq<Account>, ghost keys: seq<Option<int>>, ids: seq<int>,
    nodeids: map<int, seq<Account>>)
    returns (r: Outcome, ghost S: set<object>)
    requires WellTyped(st) && query.Valid() && KeysOfNodes(nodes, keys)
    requires ids == Distinct(keys) && nodeids == KeyMap(nodes, keys)
    requires forall i :: 0 <= i < |nodes| ==> nodes[i].Parent == null && nodes[i] !in query.Repr()
    modifies nodes`Parent, query.Repr()
    ensures fresh(S)
    ensures Reports(r, RunError(st, ParentSelection(old(query.Sel()), keys), old(query.Edges())))
    ensures r.Ok? ==> ParentsDenote(S, nodes, AccountsFor(st, old(query.Value()), keys))
    ensures r.Ok? ==> query.Valid() && query.Subs == old(query.Subs)
    ensures r.Ok? ==> query.Value() == AfterRun(st, ParentSelection(old(query.Sel()), keys), old(query.Edges()))
    decreases query.Repr(), 6
  {
    hide InValues, WellTyped, RunError, AfterRun, AccountsFor, Select, KeyMap, Distinct, ParentsDenote;
    hide JoinAccountsDenote;
    hide AccountQuery.Valid, AccountQuery.Separate, AccountQuery.Edges, Loaded, AccountsDenote;
    ghost var q := query.Value();
    var neighbors;
    r, neighbors, S := RequestAccounts(st, query, ids);
    if r.Ok? {
      label Run:
      r := ParentNeighbors(st, q, S, nodes, keys, nodeids, neighbors);
      Kept@Run(query);
    }
  }

  // `keys` holds nodes[i].ParentAccountID.
  method LoadParent(st: Store, query: AccountQuery, nodes: seq<Account>, keys: seq<Option<int>>)
    returns (r: Outcome, ghost S: set<object>)
    requires WellTyped(st) && query.Valid() && KeysOfNodes(nodes, keys)
    requires forall i :: 0 <= i < |nodes| ==> nodes[i].Parent == null && nodes[i] !in query.Repr()
    modifies nodes`Parent, query.Repr()
    ensures fresh(S)
    ensures Reports(r, AccountError(st, Some(old(query.Value())), keys))
    ensures r.Ok? ==> ParentsDenote(S, nodes, AccountsFor(st, old(query.Value()), keys))
    ensures r.Ok? ==> query.Valid() && query.Subs == old(query.Subs)
    ensures r.Ok? ==> Some(query.Value()) == AfterAccounts(st, Some(old(query.Value())), keys)
    decreases query.Repr(), 7
  {
    hide InValues, WellTyped, RunError, AfterRun, AccountsFor, Select, KeyMap, Distinct, ParentsDenote;
    hide JoinAccountsDenote;
    hide AccountQuery.Valid, AccountQuery.Separate, AccountQuery.Edges;
    var ids, nodeids := IndexByKey(nodes, keys);
    if |ids| == 0 {
      NoParents(st, query.Value(), nodes, keys);
      r, S := Ok(()), {};
    } else {
      r, S := LoadKeys(st, query, nodes, keys, ids, nodeids);
    }
  }

  // ---- loadChildren -----------------------------------------------------------------------

  function ChildSelection(sel: Selection, ids: seq<int>): Selection {
    sel.WithField(ParentAccountId).Where(InValues(ParentAccountId, ids))
  }

  lemma ParentIdSelected(st: Store, sel: Selection, ids: seq<int>, withProxy: bool, withParent: bool)
    requires WellTyped(st)
    ensures ParentAccountId in
              AccountColumns(st.accounts.columns, ChildSelection(sel, ids).fields, withProxy, withParent)
  {
    FieldSelected(st.accounts.columns, sel, ParentAccountId);
  }

  method ChildNeighbors(
    ghost st: Store, ghost q: AccountQ, ghost S: set<object>, nodes: seq<Account>, ghost ids: seq<int>,
    nodeids: map<int, Account>, neighbors: seq<Account>)
    returns (r: Outcome)
    requires WellTyped(st) && |ids| == |nodes| && DistinctNodes(nodes) && nodeids == LastNodes(nodes, ids)
    requires AccountsDenote(S, neighbors,
                 Loaded(st, ChildSelection(q.sel, ids).fields, q.edges,
                     Select(st.accounts.rows, ChildSelection(q.sel, ids))))
    requires ChildrenHold(nodes, Repeat(|nodes|, []))
    requires forall i :: 0 <= i < |nodes| ==> nodes[i] !in S
    modifies nodes`Children
    ensures r.Ok? && ChildrenDenote(S, nodes, ChildrenFor(st, q, ids))
  {
    hide Loaded, AccountsDenote, Select, ChildrenDenote, DistinctNodes, WellTyped, ChildrenHold, LastNodes;
    hide AccountColumns, InValues, FanAll, Selection.WithField;
    ghost var sel := ChildSelection(q.sel, ids);
    ghost var rows := Select(st.accounts.rows, sel);
    ghost var fks := Ints(rows, ParentAccountId);
    ParentIdSelected(st, q.sel, ids, q.edges.proxy.Some?, q.edges.parent.Some?);
    AccountKeys(st, sel, q.edges, rows, S, neighbors, ParentAccountId);
    BatchKeys(st.accounts.rows, q.sel.WithField(ParentAccountId), ParentAccountId, ids);
    ghost var at;
    r, at := DistributeChildren(nodes, ids, fks, nodeids, neighbors);
    if r.Err? {
      LastNodesLookup(nodes, ids, fks[at]);
    }
    ChildrenLoaded(S, nodes, ids, fks, neighbors, Loaded(st, sel.fields, q.edges, rows));
  }

  method RequestChildren(st: Store, query: AccountQuery, ids: seq<int>)
    returns (r: Outcome, neighbors: seq<Account>, ghost S: set<object>)
    requires WellTyped(st) && query.Valid()
    modifies query.Repr()
    ensures fresh(S)
    ensures Reports(r, RunError(st, ChildSelection(old(query.Sel()), ids), old(query.Edges())))
    ensures r.Ok? ==> Requested(st, query, ChildSelection(old(query.Sel()), ids), old(query.Edges()), S, neighbors)
    ensures r.Ok? ==> query.Subs == old(query.Subs)
    decreases query.Repr(), 5
  {
    hide InValues, Selection.WithField, WellTyped, RunError, Select, Loaded, AccountsDenote, AfterEdges, AppendOnce;
    hide AccountQuery.Valid, AccountQuery.Separate, AccountQuery.Edges;
    OutsideSubs(query);
    query.AddField(ParentAccountId);
    query.Where(InValues(ParentAccountId, ids));
    r, neighbors, S := AccountsAll(st, query);
  }

  lemma ValueParts(query: AccountQuery)
    requires query.Valid()
    ensures query.Value() == AccountQ(query.Sel(), query.Edges())
  {
  }

  // `ids` holds nodes[i].ID.
  method LoadChildren(st: Store, query: AccountQuery, nodes: seq<Account>, ids: seq<int>)
    returns (r: Outcome, ghost S: set<object>)
    requires WellTyped(st) && query.Valid() && |ids| == |nodes| && DistinctNodes(nodes)
    requires forall i :: 0 <= i < |nodes| ==> nodes[i] !in query.Repr()
    modifies nodes`Children, query.Repr()
    ensures fresh(S)
    ensures Reports(r, RunError(st, ChildSelection(old(query.Sel()), ids), old(query.Edges())))
    ensures r.Ok? ==> ChildrenDenote(S, nodes, ChildrenFor(st, old(query.Value()), ids))
    ensures r.Ok? ==> query.Valid() && query.Subs == old(query.Subs)
    ensures r.Ok? ==> query.Value() == AfterRun(st, ChildSelection(old(query.Sel()), ids), old(query.Edges()))
    decreases query.Repr(), 6
  {
    hide InValues, WellTyped, RunError, AfterRun, ChildrenFor, Select, ChildrenDenote, DistinctNodes, Loaded;
    hide AccountsDenote, ChildrenHold, ChildSelection, Repeat;
    hide AccountQuery.Valid, AccountQuery.Separate, AccountQuery.Edges, AccountQuery.Value, LastNodes;
    ValueParts(query);
    ghost var q := query.Value();
    var fks, nodeids := IndexById(nodes, ids);
    InitChildren(nodes);
    Kept(query);
    var neighbors;
    r, neighbors, S := RequestChildren(st, query, fks);
    if r.Ok? {
      label Run:
      r := ChildNeighbors(st, q, S, nodes, ids, nodeids, neighbors);
      Kept@Run(query);
    }
  }

  // ---- loadAccount of a join row -----------------------------------------------------------

  method AccountNeighbors(
    ghost st: Store, ghost q: AccountQ, ghost S: set<object>, nodes: seq<AccountGroup>, ghost keys: seq<Option<int>>,
    nodeids: map<int, seq<AccountGroup>>, neighbors: seq<Account>)
    returns (r: Outcome)
    requires WellTyped(st) && KeysOfNodes(nodes, keys) && nodeids == KeyMap(nodes, keys)
    requires AccountsDenote(S, neighbors,
                 Loaded(st, q.sel.fields, q.edges, Select(st.accounts.rows, ParentSelection(q.sel, keys))))
    requires forall i :: 0 <= i < |nodes| ==> nodes[i].Account == null && nodes[i] !in S
    modifies nodes`Account
    ensures r.Ok? && JoinAccountsDenote(S, nodes, AccountsFor(st, q, keys))
  {
    hide Loaded, AccountsDenote, Select, ParentsDenote, JoinAccountsDenote, KeyMap, Distinct, WellTyped;
    hide AccountColumns, InValues, LinkAll, KeysOfNodes, AccountsFor;
    AsMany(nodes, keys);
    AccountsByKey(st, q, keys);
    ghost var rows := Select(st.accounts.rows, ParentSelection(q.sel, keys));
    ghost var ids := Ints(rows, Id);
    IdAlwaysSelected(st, q.sel.fields, q.edges.proxy.Some?, q.edges.parent.Some?);
    AccountKeys(st, q.sel, q.edges, rows, S, neighbors, Id);
    ghost var at;
    r, at := DistributeAccounts(nodes, keys, ids, nodeids, neighbors);
    if r.Err? {
      BatchKeys(st.accounts.rows, q.sel, Id, Distinct(keys));
      KeyMapLookup(nodes, keys, ids[at]);
    }
    AccountsLoaded(S, nodes, keys, ids, neighbors, Loaded(st, q.sel.fields, q.edges, rows));
  }

  lemma NoAccounts(st: Store, q: AccountQ, nodes: seq<AccountGroup>, keys: seq<Option<int>>)
    requires Distinct(keys) == [] && |nodes| == |keys|
    requires forall i :: 0 <= i < |nodes| ==> nodes[i].Account == null
    ensures JoinAccountsDenote({}, nodes, AccountsFor(st, q, keys))
  {
    var rows := Select(st.accounts.rows, ParentSelection(q.sel, keys));
    NoKeys(keys, Ints(rows, Id), Loaded(st, q.sel.fields, q.edges, rows));
  }

  method LoadAccountKeys(
    st: Store, query: AccountQuery, nodes: seq<AccountGroup>, ghost keys: seq<Option<int>>, ids: seq<int>,
    nodeids: map<int, seq<AccountGroup>>)
    returns (r: Outcome, ghost S: set<object>)
    requires WellTyped(st) && query.Valid() && KeysOfNodes(nodes, keys)
    requires ids == Distinct(keys) && nodeids == KeyMap(nodes, keys)
    requires forall i :: 0 <= i < |nodes| ==> nodes[i].Account == null && nodes[i] !in query.Repr()
    modifies nodes`Account, query.Repr()
    ensures fresh(S)
    ensures Reports(r, RunError(st, ParentSelection(old(query.Sel()), keys), old(query.Edges())))
    ensures r.Ok? ==> JoinAccountsDenote(S, nodes, AccountsFor(st, old(query.Value()), keys))
    ensures r.Ok? ==> query.Valid() && query.Subs == old(query.Subs)
    ensures r.Ok? ==> query.Value() == AfterRun(st, ParentSelection(old(query.Sel()), keys), old(query.Edges()))
    decreases query.Repr(), 6
  {
    hide InValues, WellTyped, RunError, AfterRun, AccountsFor, Select, KeyMap, Distinct, ParentsDenote;
    hide JoinAccountsDenote;
    hide AccountQuery.Valid, AccountQuery.Separate, AccountQuery.Edges, Loaded, AccountsDenote;
    ghost var q := query.Value();
    var neighbors;
    r, neighbors, S := RequestAccounts(st, query, ids);
    if r.Ok? {
      label Run:
      r := AccountNeighbors(st, q, S, nodes, keys, nodeids, neighbors);
      Kept@Run(query);
    }
  }

  // `keys` holds nodes[i].AccountID.
  method LoadAccount(st: Store, query: AccountQuery, nodes: seq<AccountGroup>, keys: seq<Option<int>>)
    returns (r: Outcome, ghost S: set<object>)
    requires WellTyped(st) && query.Valid() && KeysOfNodes(nodes, keys)
    requires forall i :: 0 <= i < |nodes| ==> nodes[i].Account == null && nodes[i] !in query.Repr()
    modifies nodes`Account, query.Repr()
    ensures fresh(S)
    ensures Reports(r, AccountError(st, Some(old(query.Value())), keys))
    ensures r.Ok? ==> JoinAccountsDenote(S, nodes, AccountsFor(st, old(query.Value()), keys))
    ensures r.Ok? ==> query.Valid() && query.Subs == old(query.Subs)
    ensures r.Ok? ==> Some(query.Value()) == AfterAccounts(st, Some(old(query.Value())), keys)
    decreases query.Repr(), 7
  {
    hide InValues, WellTyped, RunError, AfterRun, AccountsFor, Select, KeyMap, Distinct, ParentsDenote;
    hide JoinAccountsDenote;
    hide AccountQuery.Valid, AccountQuery.Separate, AccountQuery.Edges;
    var ids, nodeids := IndexByKey(nodes, keys);
    if |ids| == 0 {
      NoAccounts(st, query.Value(), nodes, keys);
      r, S := Ok(()), {};
    } else {
      r, S := LoadAccountKeys(st, query, nodes, keys, ids, nodeids);
    }
  }

  // ---- sqlAll of join rows --------------------------------------------------------------------

  method NewJoinRows(columns: seq<Column>, rows: seq<Row>, loadedTypes: seq<bool>) returns (nodes: seq<AccountGroup>)
    ensures forall i :: 0 <= i < |nodes| ==> fresh(nodes[i])
    ensures DistinctNodes(nodes) && ScannedJoins(nodes, columns, rows, loadedTypes)
  {
    nodes := [];
    for i := 0 to |rows|
      invariant |nodes| == i && forall k :: 0 <= k < i ==> fresh(nodes[k])
      invariant DistinctNodes(nodes)
      invariant forall k :: 0 <= k < i ==>
                  nodes[k].fields == Decode(columns, rows[k]) && nodes[k].loadedTypes == loadedTypes
                  && nodes[k].Account == null && nodes[k].Group == null
    {
      var n := new AccountGroup(Decode(columns, rows[i]), loadedTypes);
      DistinctSnoc(nodes, n);
      nodes := nodes + [n];
    }
  }

  // The column list of AccountGroupQuery.querySpec.
  method JoinSpec(fields: seq<Column>, all: seq<Column>, withAccount: bool, withGroup: bool)
    returns (columns: seq<Column>)
    ensures columns == AccountGroupColumns(all, fields, withAccount, withGroup)
  {
    columns := all;
    if |fields| > 0 {
      columns := fields;
      if withAccount {
        columns := AppendOnce(columns, AccountId);
      }
      if withGroup {
        columns := AppendOnce(columns, GroupId);
      }
    }
  }

  function JoinKeys(nodes: seq<AccountGroup>, c: Column): (r: seq<Option<int>>)
    ensures |r| == |nodes| && forall i :: 0 <= i < |nodes| ==> r[i] == Some(IntOf(nodes[i].fields, c))
  {
    seq(|nodes|, i requires 0 <= i < |nodes| => Some(IntOf(nodes[i].fields, c)))
  }

  lemma {:induction false} JoinKeysOfNodes(nodes: seq<AccountGroup>, c: Column)
    ensures KeysOfNodes(nodes, JoinKeys(nodes, c))
  {
    if |nodes| > 0 {
      var n := |nodes| - 1;
      JoinKeysOfNodes(nodes[..n], c);
      assert JoinKeys(nodes, c)[..n] == JoinKeys(nodes[..n], c);
    }
  }

  // The nodes' keys are those of the rows, if the column was selected.
  lemma SelectedKeys(nodes: seq<AccountGroup>, columns: seq<Column>, rows: seq<Row>, c: Column)
    requires |nodes| == |rows| && c in columns
    requires forall i :: 0 <= i < |nodes| ==> nodes[i].fields == Decode(columns, rows[i])
    ensures JoinKeys(nodes, c) == Somes(Ints(rows, c))
  {
    forall i | 0 <= i < |nodes|
      ensures JoinKeys(nodes, c)[i] == Somes(Ints(rows, c))[i]
    {
      DecodeKey(columns, rows[i], c);
    }
  }

  // `if query := withAccount; query != nil { loadAccount }`.
  method AccountStep(
    st: Store, query: AccountQuery?, nodes: seq<AccountGroup>, ghost columns: seq<Column>, ghost rows: seq<Row>)
    returns (r: Outcome, ghost S: set<object>)
    requires WellTyped(st) && MaybeValid(query) && |nodes| == |rows|
    requires forall i :: 0 <= i < |nodes| ==> nodes[i].fields == Decode(columns, rows[i])
    requires query != null ==> AccountId in columns
    requires forall i :: 0 <= i < |nodes| ==> nodes[i].Account == null && nodes[i] !in AccountRepr(query)
    modifies nodes`Account, AccountRepr(query)
    ensures fresh(S)
    ensures Reports(r, AccountError(st, old(AccountValue(query)), Somes(Ints(rows, AccountId))))
    ensures r.Ok? ==> JoinAccountsDenote(S, nodes,
                AccountEdge(st, old(AccountValue(query)), Somes(Ints(rows, AccountId))))
    ensures r.Ok? ==> MaybeValid(query) && AccountRepr(query) == old(AccountRepr(query))
    ensures r.Ok? && query != null ==> query.Subs == old(query.Subs)
    ensures r.Ok? ==> AccountValue(query) == AfterAccounts(st, old(AccountValue(query)), Somes(Ints(rows, AccountId)))
    decreases AccountRepr(query), 8
  {
    hide WellTyped, RunError, RunGroupsError, Select, AfterRun, AfterRunGroups, DistinctNodes, Distinct, FieldError;
    hide AppendOnce;
    hide EntitiesFor, AccountsFor, EntityColumns, DecodeAll;
    if query != null {
      SelectedKeys(nodes, columns, rows, AccountId);
      JoinKeysOfNodes(nodes, AccountId);
      r, S := LoadAccount(st, query, nodes, JoinKeys(nodes, AccountId));
    } else {
      r, S := Ok(()), {};
    }
  }

  // `if query := withGroup; query != nil { loadGroup }`.
  method GroupStep(
    t: Table, query: EntityQuery?, nodes: seq<AccountGroup>, ghost columns: seq<Column>, ghost rows: seq<Row>)
    returns (r: Outcome)
    requires Id in t.columns && |nodes| == |rows| && (query != null ==> query.joins == [])
    requires forall i :: 0 <= i < |nodes| ==> nodes[i].fields == Decode(columns, rows[i])
    requires query != null ==> GroupId in columns
    requires forall i :: 0 <= i < |nodes| ==> nodes[i].Group == null
    modifies nodes`Group, EntityRepr(query)
    ensures Reports(r, EntityError(t, old(EntityValue(query)), Somes(Ints(rows, GroupId))))
    ensures r.Ok? ==> OneGroupsDenote(nodes, EntityEdge(t, old(EntityValue(query)), Somes(Ints(rows, GroupId))))
    ensures r.Ok? ==> EntityValue(query) == AfterEntities(old(EntityValue(query)), Somes(Ints(rows, GroupId)))
    ensures query != null ==> query.joins == []
  {
    hide WellTyped, RunError, RunGroupsError, Select, AfterRun, AfterRunGroups, DistinctNodes, Distinct, FieldError;
    hide AppendOnce;
    hide EntitiesFor, AccountsFor, EntityColumns, DecodeAll;
    if query != null {
      SelectedKeys(nodes, columns, rows, GroupId);
      JoinKeysOfNodes(nodes, GroupId);
      r := LoadGroup(t, query, nodes, JoinKeys(nodes, GroupId));
    } else {
      r := Ok(());
    }
  }

  // A join query whose subqueries are valid trees on their old footprints.
  twostate lemma RebuildJoin(query: AccountGroupQuery)
    requires old(query.Valid())
    requires unchanged(query, query.ctx)
    requires MaybeValid(query.withAccount)
    requires query.withAccount != null ==> query.withAccount.Subs == old(query.withAccount.Subs)
    requires query.withGroup != null ==> query.withGroup.joins == []
    ensures query.Valid()
    ensures query.Value() == AccountGroupQ(query.Sel(), AccountValue(query.withAccount), EntityValue(query.withGroup))
  {
  }

  // The node of a row with its two edges.
  lemma JoinAssembled(
    st: Store, fields: seq<Column>, q: AccountGroupQ, rows: seq<Row>, nodes: seq<AccountGroup>, S: set<object>,
    S': set<object>)
    requires |nodes| == |rows| && S <= S' && forall n :: n in nodes ==> n in S'
    requires forall i :: 0 <= i < |nodes| ==>
               nodes[i].fields
               == Decode(
                 AccountGroupColumns(st.accountGroups.columns, fields, q.account.Some?, q.group.Some?), rows[i])
               && nodes[i].loadedTypes == q.LoadedTypes()
    requires JoinAccountsDenote(S, nodes, AccountEdge(st, q.account, Somes(Ints(rows, AccountId))))
    requires OneGroupsDenote(nodes, EntityEdge(st.groups, q.group, Somes(Ints(rows, GroupId))))
    ensures JoinsDenote(S', nodes, LoadedGroups(st, fields, q, rows))
  {
    hide AccountGroupColumns, Decode, AccountEdge, EntityEdge, Somes, Ints, AccountGroupQ.LoadedTypes;
    forall i | 0 <= i < |nodes|
      ensures JoinDenotes(S', nodes[i], LoadedGroup(st, fields, q, rows, i))
    {
      assert nodes[i] in nodes;
      if nodes[i].Account != null {
        Grow(S, S', nodes[i].Account, AccountEdge(st, q.account, Somes(Ints(rows, AccountId)))[i].value);
      }
    }
  }

  lemma LogsKeyed(st: Store)
    requires WellTyped(st)
    ensures Id in st.usageLogs.columns && AccountId in st.usageLogs.columns
  {
  }

  lemma GroupsKeyed(st: Store)
    requires WellTyped(st)
    ensures LeadsWithId(st.groups.columns) && Id in st.groups.columns
  {
  }

  // Both edges of non-empty join rows, and the query afterwards.
  method LoadJoinEdges(
    st: Store, query: AccountGroupQuery, nodes: seq<AccountGroup>, ghost columns: seq<Column>, ghost rows: seq<Row>)
    returns (r: Outcome, ghost S: set<object>)
    requires WellTyped(st) && query.Valid() && |nodes| == |rows|
    requires forall i :: 0 <= i < |nodes| ==> nodes[i].fields == Decode(columns, rows[i])
    requires query.withAccount != null ==> AccountId in columns
    requires query.withGroup != null ==> GroupId in columns
    requires forall i :: 0 <= i < |nodes| ==>
               nodes[i].Account == null && nodes[i].Group == null && nodes[i] !in query.Repr()
    modifies nodes`Account, nodes`Group, query.Subs
    ensures fresh(S)
    ensures Reports(r, OrElse(AccountError(st, old(query.Value()).account, Somes(Ints(rows, AccountId))),
                              EntityError(st.groups, old(query.Value()).group, Somes(Ints(rows, GroupId)))))
    ensures r.Ok? ==> JoinAccountsDenote(S, nodes,
                AccountEdge(st, old(query.Value()).account, Somes(Ints(rows, AccountId))))
    ensures r.Ok? ==> OneGroupsDenote(nodes,
                EntityEdge(st.groups, old(query.Value()).group, Somes(Ints(rows, GroupId))))
    ensures r.Ok? ==> query.Valid() && query.Subs == old(query.Subs)
    ensures r.Ok? ==> query.Value() == AccountGroupQ(
              query.Sel(),
              AfterAccounts(st, old(query.Value()).account, Somes(Ints(rows, AccountId))),
              AfterEntities(old(query.Value()).group, Somes(Ints(rows, GroupId))))
    decreases query.Repr(), 1
  {
    hide AccountGroupQuery.Valid, AccountGroupQuery.Value, MaybeValid, AccountValue, EntityValue, AccountRepr;
    hide EntityRepr;
    hide WellTyped, AccountError, EntityError, AccountEdge, EntityEdge, AfterAccounts, AfterEntities;
    hide JoinAccountsDenote, OneGroupsDenote;
    GroupsKeyed(st);
    SmallerAccount(query);
    r, S := AccountStep(st, query.withAccount, nodes, columns, rows);
    if r.Err? {
      return;
    }
    KeptEntity(query.withGroup);
    label Between:
    r := GroupStep(st.groups, query.withGroup, nodes, columns, rows);
    if r.Ok? {
      KeptMaybe@Between(query.withAccount);
      RebuildJoin(query);
    }
  }

  ghost predicate ScannedJoins(nodes: seq<AccountGroup>, columns: seq<Column>, rows: seq<Row>, loadedTypes: seq<bool>)
    reads nodes
  {
    |nodes| == |rows| && forall i :: 0 <= i < |nodes| ==>
      nodes[i].fields == Decode(columns, rows[i]) && nodes[i].loadedTypes == loadedTypes
      && nodes[i].Account == null && nodes[i].Group == null
  }

  lemma OutsideJoinSubs(query: AccountGroupQuery)
    requires query.Valid()
    ensures query !in query.Subs && query.ctx !in query.Subs
  {
  }

  lemma JoinColumns(st: Store, fields: seq<Column>, withAccount: bool, withGroup: bool)
    requires WellTyped(st)
    ensures withAccount ==> AccountId in AccountGroupColumns(st.accountGroups.columns, fields, withAccount, withGroup)
    ensures withGroup ==> GroupId in AccountGroupColumns(st.accountGroups.columns, fields, withAccount, withGroup)
  {
    MaybeKeeps(fields, withAccount, AccountId, AccountId);
    MaybeKeeps(MaybeOnce(fields, withAccount, AccountId), withGroup, GroupId, AccountId);
  }

  // The edges of the scanned rows, assembled.
  method FinishJoinRows(
    st: Store, query: AccountGroupQuery, nodes: seq<AccountGroup>, ghost columns: seq<Column>, ghost rows: seq<Row>)
    returns (r: Outcome, ghost S: set<object>)
    requires WellTyped(st) && query.Valid()
    requires columns
            == AccountGroupColumns(
                 st.accountGroups.columns, query.ctx.Fields, query.withAccount != null, query.withGroup != null)
    requires ScannedJoins(nodes, columns, rows, query.Value().LoadedTypes())
    requires forall i :: 0 <= i < |nodes| ==> nodes[i] !in query.Repr()
    modifies nodes`Account, nodes`Group, query.Subs
    ensures fresh(S - set n | n in nodes :: n as object)
    ensures Reports(r, JoinEdgesError(st, old(query.Value()), rows))
    ensures r.Ok? ==> JoinsDenote(S, nodes, LoadedGroups(st, query.ctx.Fields, old(query.Value()), rows))
    ensures r.Ok? ==> query.Valid() && query.Subs == old(query.Subs)
    ensures r.Ok? ==> query.Value() == AfterJoinEdges(st, query.Sel(), old(query.Value()), rows)
    decreases query.Repr(), 2
  {
    hide WellTyped, AccountGroupQuery.Valid, JoinAccountsDenote, OneGroupsDenote, LoadedGroup, JoinDenotes;
    hide AccountError, EntityError, AccountGroupColumns, AccountEdge, EntityEdge, AfterAccounts, AfterEntities, Ints;
    hide Decode;
    if |nodes| == 0 {
      return Ok(()), {};
    }
    ghost var q, fields := query.Value(), query.ctx.Fields;
    OutsideJoinSubs(query);
    JoinColumns(st, fields, query.withAccount != null, query.withGroup != null);
    ghost var loaded;
    r, loaded := LoadJoinEdges(st, query, nodes, columns, rows);
    S := loaded + set n | n in nodes :: n as object;
    if r.Ok? {
      JoinAssembled(st, fields, q, rows, nodes, loaded, S);
    }
  }

  // prepareQuery, querySpec and the scan loop.
  method ScanJoinRows(st: Store, query: AccountGroupQuery)
    returns (r: Outcome, nodes: seq<AccountGroup>, ghost columns: seq<Column>)
    requires query.Valid()
    ensures Reports(r, FieldError(query.ctx.Fields, st.accountGroups.columns))
    ensures forall i :: 0 <= i < |nodes| ==> fresh(nodes[i])
    ensures r.Ok? ==>
              columns == AccountGroupColumns(
                st.accountGroups.columns, query.ctx.Fields, query.withAccount != null, query.withGroup != null)
    ensures r.Ok? ==> ScannedJoins(nodes, columns, Select(st.accountGroups.rows, query.Sel()),
                query.Value().LoadedTypes())
  {
    nodes, columns := [], [];
    r := PrepareQuery(query.ctx.Fields, st.accountGroups.columns);
    if r.Ok? {
      var selected := JoinSpec(
        query.ctx.Fields, st.accountGroups.columns, query.withAccount != null, query.withGroup != null);
      columns := selected;
      nodes := NewJoinRows(selected, Select(st.accountGroups.rows, query.Sel()),
          [query.withAccount != null, query.withGroup != null]);
    }
  }

  method JoinRowsAll(st: Store, query: AccountGroupQuery)
    returns (r: Outcome, nodes: seq<AccountGroup>, ghost S: set<object>)
    requires WellTyped(st) && query.Valid()
    modifies query.Subs
    ensures fresh(S)
    ensures Reports(r, RunGroupsError(st, query.Sel(), old(query.Value())))
    ensures r.Ok? ==> JoinsDenote(S, nodes,
                LoadedGroups(st, query.ctx.Fields, old(query.Value()), Select(st.accountGroups.rows, query.Sel())))
    ensures r.Ok? ==> query.Valid() && query.Subs == old(query.Subs)
    ensures r.Ok? ==> query.Value() == AfterRunGroups(st, query.Sel(), old(query.Value()))
    decreases query.Repr(), 3
  {
    hide WellTyped, Select, FieldError, JoinEdgesError, AfterJoinEdges, LoadedGroups, JoinsDenote, ScannedJoins;
    hide AccountGroupColumns, AccountGroupQ.LoadedTypes;
    hide AccountGroupQuery.Valid;
    OutsideJoinSubs(query);
    ghost var columns;
    S := {};
    r, nodes, columns := ScanJoinRows(st, query);
    if r.Ok? {
      r, S := FinishJoinRows(st, query, nodes, columns, Select(st.accountGroups.rows, query.Sel()));
    }
  }

  // ---- loadAccountGroups ----------------------------------------------------------------------

  function JoinSelection(sel: Selection, ids: seq<int>): Selection {
    sel.WithField(AccountId).Where(InValues(AccountId, ids))
  }

  lemma JoinFieldSelected(st: Store, sel: Selection, ids: seq<int>, withAccount: bool, withGroup: bool)
    requires WellTyped(st)
    ensures AccountId in
              AccountGroupColumns(st.accountGroups.columns, JoinSelection(sel, ids).fields, withAccount, withGroup)
  {
  }

  lemma JoinRowKeys(st: Store, sel: Selection, q: AccountGroupQ, rows: seq<Row>, S: set<object>, ns: seq<AccountGroup>)
    requires JoinsDenote(S, ns, LoadedGroups(st, sel.fields, q, rows))
    requires AccountId in AccountGroupColumns(st.accountGroups.columns, sel.fields, q.account.Some?, q.group.Some?)
    ensures |ns| == |rows|
    ensures forall j :: 0 <= j < |ns| ==> IntOf(ns[j].fields, AccountId) == IntOf(rows[j], AccountId)
  {
    forall j | 0 <= j < |ns|
      ensures IntOf(ns[j].fields, AccountId) == IntOf(rows[j], AccountId)
    {
      assert JoinDenotes(S, ns[j], LoadedGroup(st, sel.fields, q, rows, j));
      DecodeKey(AccountGroupColumns(st.accountGroups.columns, sel.fields, q.account.Some?, q.group.Some?), rows[j],
          AccountId);
    }
  }

  method JoinNeighbors(
    ghost st: Store, ghost q: AccountGroupQ, ghost S: set<object>, nodes: seq<Account>, ghost ids: seq<int>,
    nodeids: map<int, Account>, neighbors: seq<AccountGroup>)
    returns (r: Outcome)
    requires WellTyped(st) && |ids| == |nodes| && DistinctNodes(nodes) && nodeids == LastNodes(nodes, ids)
    requires JoinsDenote(S, neighbors,
                 LoadedGroups(st, JoinSelection(q.sel, ids).fields, q,
                     Select(st.accountGroups.rows, JoinSelection(q.sel, ids))))
    requires JoinsHold(nodes, Repeat(|nodes|, []))
    requires forall i :: 0 <= i < |nodes| ==> nodes[i] !in S
    modifies nodes`AccountGroups
    ensures r.Ok? && AccountGroupsDenote(S, nodes, AccountGroupsFor(st, q, ids))
  {
    hide LoadedGroups, JoinsDenote, Select, AccountGroupsDenote, DistinctNodes, WellTyped, JoinsHold, LastNodes;
    hide AccountGroupColumns, InValues, FanAll, Selection.WithField;
    ghost var sel := JoinSelection(q.sel, ids);
    ghost var rows := Select(st.accountGroups.rows, sel);
    ghost var fks := Ints(rows, AccountId);
    JoinFieldSelected(st, q.sel, ids, q.account.Some?, q.group.Some?);
    JoinRowKeys(st, sel, q, rows, S, neighbors);
    BatchKeys(st.accountGroups.rows, q.sel.WithField(AccountId), AccountId, ids);
    ghost var at;
    r, at := DistributeJoins(nodes, ids, fks, nodeids, neighbors);
    if r.Err? {
      LastNodesLookup(nodes, ids, fks[at]);
    }
    JoinsLoaded(S, nodes, ids, fks, neighbors, LoadedGroups(st, sel.fields, q, rows));
  }

  // A successful run of `query`, which was q, as selection sel.
  ghost predicate RequestedJoins(
    st: Store, query: AccountGroupQuery, sel: Selection, q: AccountGroupQ, S: set<object>, ns: seq<AccountGroup>)
    reads query, query.ctx, query.Subs, S
  {
    && query.Valid() && query.Value() == AfterRunGroups(st, sel, q)
    && JoinsDenote(S, ns, LoadedGroups(st, sel.fields, q, Select(st.accountGroups.rows, sel)))
  }

  lemma SelectedBy(query: AccountGroupQuery)
    requires query.Valid()
    ensures query.Value().sel == query.Sel()
  {
  }

  method RequestJoins(st: Store, query: AccountGroupQuery, ids: seq<int>)
    returns (r: Outcome, neighbors: seq<AccountGroup>, ghost S: set<object>)
    requires WellTyped(st) && query.Valid()
    modifies query.Repr()
    ensures fresh(S)
    ensures Reports(r, RunGroupsError(st, JoinSelection(old(query.Sel()), ids), old(query.Value())))
    ensures r.Ok? ==> RequestedJoins(st, query, JoinSelection(old(query.Sel()), ids), old(query.Value()), S, neighbors)
    ensures r.Ok? ==> query.Subs == old(query.Subs)
    decreases query.Repr(), 5
  {
    hide InValues, WellTyped, RunGroupsError, AfterRunGroups, AppendOnce, Select, LoadedGroups, JoinsDenote;
    hide AccountGroupQuery.Valid, Selection.WithField;
    ghost var q := query.Value();
    query.AddField(AccountId);
    query.Where(InValues(AccountId, ids));
    ghost var q' := query.Value();
    SameEdges(st, JoinSelection(q.sel, ids), q, q');
    r, neighbors, S := JoinRowsAll(st, query);
  }

  // The selection inside a join query plays no role once the rows are known.
  lemma SameEdges(st: Store, sel: Selection, q: AccountGroupQ, q': AccountGroupQ)
    requires q'.account == q.account && q'.group == q.group
    ensures RunGroupsError(st, sel, q') == RunGroupsError(st, sel, q)
    ensures AfterRunGroups(st, sel, q') == AfterRunGroups(st, sel, q)
    ensures LoadedGroups(st, sel.fields, q', Select(st.accountGroups.rows, sel))
         == LoadedGroups(st, sel.fields, q, Select(st.accountGroups.rows, sel))
  {
    hide Select, AccountError, EntityError, AfterAccounts, AfterEntities, AccountEdge, EntityEdge;
    hide AccountGroupColumns, FieldError;
  }

  // `ids` holds nodes[i].ID.
  method LoadAccountGroups(st: Store, query: AccountGroupQuery, nodes: seq<Account>, ids: seq<int>)
    returns (r: Outcome, ghost S: set<object>)
    requires WellTyped(st) && query.Valid() && |ids| == |nodes| && DistinctNodes(nodes)
    requires forall i :: 0 <= i < |nodes| ==> nodes[i] !in query.Repr()
    modifies nodes`AccountGroups, query.Repr()
    ensures fresh(S)
    ensures Reports(r, RunGroupsError(st, JoinSelection(old(query.Sel()), ids), old(query.Value())))
    ensures r.Ok? ==> AccountGroupsDenote(S, nodes, AccountGroupsFor(st, old(query.Value()), ids))
    ensures r.Ok? ==> query.Valid() && query.Subs == old(query.Subs)
    ensures r.Ok? ==> query.Value() == AfterRunGroups(st, JoinSelection(old(query.Sel()), ids), old(query.Value()))
    decreases query.Repr(), 6
  {
    hide InValues, WellTyped, RunGroupsError, AfterRunGroups, AccountGroupsFor, Select, AccountGroupsDenote;
    hide DistinctNodes, LoadedGroups, JoinsDenote, JoinsHold, JoinSelection, Repeat;
    hide AccountGroupQuery.Valid, AccountGroupQuery.Value, LastNodes;
    SelectedBy(query);
    ghost var q := query.Value();
    var fks, nodeids := IndexById(nodes, ids);
    InitJoins(nodes);
    KeptJoin(query);
    var neighbors;
    r, neighbors, S := RequestJoins(st, query, fks);
    if r.Ok? {
      label Run:
      r := JoinNeighbors(st, q, S, nodes, ids, nodeids, neighbors);
      KeptJoin@Run(query);
    }
  }

  // ---- the six edges of an account --------------------------------------------------------------

  // The nodes carry the decoded rows.
  ghost predicate Carries(nodes: seq<Account>, columns: seq<Column>, rows: seq<Row>)
    reads nodes`fields
  {
    |nodes| == |rows| && forall i :: 0 <= i < |nodes| ==> nodes[i].fields == Decode(columns, rows[i])
  }

  lemma CarriesKeys(nodes: seq<Account>, columns: seq<Column>, rows: seq<Row>, c: Column)
    requires Carries(nodes, columns, rows) && c in columns
    ensures Keys(NodeFields(nodes), c) == Keys(rows, c) && Ints(NodeFields(nodes), c) == Ints(rows, c)
  {
    forall i | 0 <= i < |nodes|
      ensures KeyOf(NodeFields(nodes)[i], c) == KeyOf(rows[i], c) && IntOf(NodeFields(nodes)[i], c) == IntOf(rows[i], c)
    {
      DecodeKey(columns, rows[i], c);
    }
  }

  lemma {:induction false} DistinctKeys<N>(nodes: seq<N>, keys: seq<Option<int>>)
    requires DistinctNodes(nodes) && |nodes| == |keys|
    ensures KeysOfNodes(nodes, keys)
  {
    if |nodes| > 0 {
      var n := |nodes| - 1;
      DistinctKeys(nodes[..n], keys[..n]);
      assert forall i :: 0 <= i < n ==> nodes[..n][i] == nodes[i];
    }
  }

  // Each step is `if query := withX; query != nil { loadX }`.

  method GroupsStep(
    st: Store, query: EntityQuery?, nodes: seq<Account>, ghost columns: seq<Column>, ghost rows: seq<Row>)
    returns (r: Outcome)
    requires WellTyped(st) && Carries(nodes, columns, rows) && Id in columns && DistinctNodes(nodes)
    requires forall i :: 0 <= i < |nodes| ==> nodes[i].Groups == []
    modifies nodes`Groups, if query == null then {} else {query}
    ensures Reports(r, GroupsError(st, old(EntityValue(query)), rows))
    ensures r.Ok? ==> GroupsDenote(nodes, GroupsEdge(st, old(EntityValue(query)), rows))
    ensures r.Ok? ==> EntityValue(query) == AfterGroups(old(EntityValue(query)), rows)
  {
    hide WellTyped, RunError, RunGroupsError, Select, AfterRun, AfterRunGroups, DistinctNodes, Distinct, FieldError;
    hide AppendOnce;
    hide EntitiesFor, AccountsFor, EntityColumns, DecodeAll, GroupsFor, GroupsErrorFor;
    if query != null {
      GroupsKeyed(st);
      CarriesKeys(nodes, columns, rows, Id);
      r := LoadGroups(st, query, nodes, Ints(NodeFields(nodes), Id));
    } else {
      r := Ok(());
    }
  }

  method ProxyStep(t: Table, query: EntityQuery?, nodes: seq<Account>, ghost columns: seq<Column>, ghost rows: seq<Row>)
    returns (r: Outcome)
    requires Id in t.columns && Carries(nodes, columns, rows) && DistinctNodes(nodes)
    requires query != null ==> query.joins == [] && ProxyId in columns
    requires forall i :: 0 <= i < |nodes| ==> nodes[i].Proxy == null
    modifies nodes`Proxy, if query == null then {} else {query}
    ensures Reports(r, EntityError(t, old(EntityValue(query)), Keys(rows, ProxyId)))
    ensures r.Ok? ==> ProxiesDenote(nodes, EntityEdge(t, old(EntityValue(query)), Keys(rows, ProxyId)))
    ensures r.Ok? ==> EntityValue(query) == AfterEntities(old(EntityValue(query)), Keys(rows, ProxyId))
    ensures query != null ==> query.joins == []
  {
    hide WellTyped, RunError, RunGroupsError, Select, AfterRun, AfterRunGroups, DistinctNodes, Distinct, FieldError;
    hide AppendOnce;
    hide EntitiesFor, AccountsFor, EntityColumns, DecodeAll;
    if query != null {
      CarriesKeys(nodes, columns, rows, ProxyId);
      DistinctKeys(nodes, Keys(rows, ProxyId));
      r := LoadProxy(t, query, nodes, Keys(NodeFields(nodes), ProxyId));
    } else {
      r := Ok(());
    }
  }

  method ParentStep(
    st: Store, query: AccountQuery?, nodes: seq<Account>, ghost columns: seq<Column>, ghost rows: seq<Row>)
    returns (r: Outcome, ghost S: set<object>)
    requires WellTyped(st) && MaybeValid(query) && Carries(nodes, columns, rows) && DistinctNodes(nodes)
    requires query != null ==> ParentAccountId in columns
    requires forall i :: 0 <= i < |nodes| ==> nodes[i].Parent == null && nodes[i] !in AccountRepr(query)
    modifies nodes`Parent, AccountRepr(query)
    ensures fresh(S)
    ensures Reports(r, AccountError(st, old(AccountValue(query)), Keys(rows, ParentAccountId)))
    ensures r.Ok? ==> ParentsDenote(S, nodes, AccountEdge(st, old(AccountValue(query)), Keys(rows, ParentAccountId)))
    ensures r.Ok? ==> MaybeValid(query) && (query != null ==> query.Subs == old(query.Subs))
    ensures r.Ok? ==> AccountValue(query) == AfterAccounts(st, old(AccountValue(query)), Keys(rows, ParentAccountId))
    decreases AccountRepr(query), 8
  {
    hide WellTyped, RunError, RunGroupsError, Select, AfterRun, AfterRunGroups, DistinctNodes, Distinct, FieldError;
    hide AppendOnce;
    hide EntitiesFor, AccountsFor, EntityColumns, DecodeAll;
    if query != null {
      CarriesKeys(nodes, columns, rows, ParentAccountId);
      DistinctKeys(nodes, Keys(rows, ParentAccountId));
      r, S := LoadParent(st, query, nodes, Keys(NodeFields(nodes), ParentAccountId));
    } else {
      r, S := Ok(()), {};
    }
  }

  method ChildrenStep(
    st: Store, query: AccountQuery?, nodes: seq<Account>, ghost columns: seq<Column>, ghost rows: seq<Row>)
    returns (r: Outcome, ghost S: set<object>)
    requires WellTyped(st) && MaybeValid(query) && Carries(nodes, columns, rows) && Id in columns
               && DistinctNodes(nodes)
    requires forall i :: 0 <= i < |nodes| ==> nodes[i].Children == [] && nodes[i] !in AccountRepr(query)
    modifies nodes`Children, AccountRepr(query)
    ensures fresh(S)
    ensures Reports(r, ChildrenError(st, old(AccountValue(query)), rows))
    ensures r.Ok? ==> ChildrenDenote(S, nodes, ChildrenEdge(st, old(AccountValue(query)), rows))
    ensures r.Ok? ==> MaybeValid(query) && (query != null ==> query.Subs == old(query.Subs))
    ensures r.Ok? ==> AccountValue(query) == AfterChildren(st, old(AccountValue(query)), rows)
    decreases AccountRepr(query), 8
  {
    hide WellTyped, RunError, RunGroupsError, Select, AfterRun, AfterRunGroups, DistinctNodes, Distinct, FieldError;
    hide AppendOnce;
    hide EntitiesFor, AccountsFor, EntityColumns, DecodeAll, ChildrenFor;
    if query != null {
      CarriesKeys(nodes, columns, rows, Id);
      r, S := LoadChildren(st, query, nodes, Ints(NodeFields(nodes), Id));
    } else {
      r, S := Ok(()), {};
    }
  }

  method LogsStep(st: Store, query: EntityQuery?, nodes: seq<Account>, ghost columns: seq<Column>, ghost rows: seq<Row>)
    returns (r: Outcome)
    requires WellTyped(st) && Carries(nodes, columns, rows) && Id in columns && DistinctNodes(nodes)
    requires query != null ==> query.joins == []
    requires forall i :: 0 <= i < |nodes| ==> nodes[i].UsageLogs == []
    modifies nodes`UsageLogs, EntityRepr(query)
    ensures Reports(r, LogsError(st, old(EntityValue(query))))
    ensures r.Ok? ==> LogsDenote(nodes, LogsEdge(st, old(EntityValue(query)), rows))
    ensures r.Ok? ==> EntityValue(query) == AfterLogs(old(EntityValue(query)), rows)
    ensures query != null ==> query.joins == []
  {
    hide WellTyped, RunError, RunGroupsError, Select, AfterRun, AfterRunGroups, DistinctNodes, Distinct, FieldError;
    hide AppendOnce;
    hide EntitiesFor, AccountsFor, EntityColumns, DecodeAll;
    if query != null {
      LogsKeyed(st);
      CarriesKeys(nodes, columns, rows, Id);
      r := LoadUsageLogs(st, query, nodes, Ints(NodeFields(nodes), Id));
    } else {
      r := Ok(());
    }
  }

  method JoinsStep(
    st: Store, query: AccountGroupQuery?, nodes: seq<Account>, ghost columns: seq<Column>, ghost rows: seq<Row>)
    returns (r: Outcome, ghost S: set<object>)
    requires WellTyped(st) && MaybeValidJoin(query) && Carries(nodes, columns, rows) && Id in columns
               && DistinctNodes(nodes)
    requires forall i :: 0 <= i < |nodes| ==> nodes[i].AccountGroups == [] && nodes[i] !in GroupsRepr(query)
    modifies nodes`AccountGroups, GroupsRepr(query)
    ensures fresh(S)
    ensures Reports(r, JoinsError(st, old(JoinValue(query)), rows))
    ensures r.Ok? ==> AccountGroupsDenote(S, nodes, JoinsEdge(st, old(JoinValue(query)), rows))
    ensures r.Ok? ==> MaybeValidJoin(query) && (query != null ==> query.Subs == old(query.Subs))
    ensures r.Ok? ==> JoinValue(query) == AfterJoins(st, old(JoinValue(query)), rows)
    decreases GroupsRepr(query), 8
  {
    hide WellTyped, RunError, RunGroupsError, Select, AfterRun, AfterRunGroups, DistinctNodes, Distinct, FieldError;
    hide AppendOnce;
    hide EntitiesFor, AccountsFor, EntityColumns, DecodeAll;
    if query != null {
      CarriesKeys(nodes, columns, rows, Id);
      r, S := LoadAccountGroups(st, query, nodes, Ints(NodeFields(nodes), Id));
    } else {
      r, S := Ok(()), {};
    }
  }

  lemma ProxiesKeyed(st: Store)
    requires WellTyped(st)
    ensures Id in st.proxies.columns
  {
  }

  method LoadProxyParent(
    st: Store, proxy: EntityQuery?, parent: AccountQuery?, nodes: seq<Account>, ghost columns: seq<Column>,
    ghost rows: seq<Row>, ghost N: set<Account>)
    returns (r: Outcome, ghost S: set<object>)
    requires WellTyped(st) && Carries(nodes, columns, rows) && DistinctNodes(nodes)
    requires MaybeValid(parent) && (proxy != null ==> proxy.joins == [] && ProxyId in columns)
    requires parent != null ==> ParentAccountId in columns
    requires EntityRepr(proxy) !! AccountRepr(parent)
    requires forall i :: 0 <= i < |nodes| ==> nodes[i].Proxy == null && nodes[i].Parent == null
    requires N !! AccountRepr(parent) && forall i :: 0 <= i < |nodes| ==> nodes[i] in N
    modifies N`Proxy, N`Parent, EntityRepr(proxy), AccountRepr(parent)
    ensures fresh(S)
    ensures Reports(r, OrElse(EntityError(st.proxies, old(EntityValue(proxy)), Keys(rows, ProxyId)),
                              AccountError(st, old(AccountValue(parent)), Keys(rows, ParentAccountId))))
    ensures r.Ok? ==> ProxiesDenote(nodes, EntityEdge(st.proxies, old(EntityValue(proxy)), Keys(rows, ProxyId)))
    ensures r.Ok? ==> ParentsDenote(S, nodes, AccountEdge(st, old(AccountValue(parent)), Keys(rows, ParentAccountId)))
    ensures r.Ok? ==> EntityValue(proxy) == AfterEntities(old(EntityValue(proxy)), Keys(rows, ProxyId))
    ensures proxy != null ==> proxy.joins == []
    ensures r.Ok? ==> MaybeValid(parent) && (parent != null ==> parent.Subs == old(parent.Subs))
    ensures r.Ok? ==> AccountValue(parent) == AfterAccounts(st, old(AccountValue(parent)), Keys(rows, ParentAccountId))
    decreases AccountRepr(parent), 9
  {
    hide ProxiesDenote, ParentsDenote, EntityEdge, AccountEdge, EntityError, AccountError, AfterEntities, AfterAccounts;
    hide WellTyped, Carries, DistinctNodes, EntityValue, AccountValue, MaybeValid;
    ProxiesKeyed(st);
    S := {};
    r := ProxyStep(st.proxies, proxy, nodes, columns, rows);
    if r.Ok? {
      KeptMaybe(parent);
      label One:
      r, S := ParentStep(st, parent, nodes, columns, rows);
      KeptEntity@One(proxy);
    }
  }

  method LoadGroupsProxyParent(
    st: Store, groups: EntityQuery?, proxy: EntityQuery?, parent: AccountQuery?, nodes: seq<Account>,
    ghost columns: seq<Column>, ghost rows: seq<Row>, ghost N: set<Account>)
    returns (r: Outcome, ghost S: set<object>)
    requires WellTyped(st) && Carries(nodes, columns, rows) && Id in columns && DistinctNodes(nodes)
    requires MaybeValid(parent) && (proxy != null ==> proxy.joins == [] && ProxyId in columns)
    requires parent != null ==> ParentAccountId in columns
    requires EntityRepr(groups) !! EntityRepr(proxy) !! AccountRepr(parent)
    requires forall i :: 0 <= i < |nodes| ==>
               nodes[i].Groups == [] && nodes[i].Proxy == null && nodes[i].Parent == null
    requires N !! AccountRepr(parent) && forall i :: 0 <= i < |nodes| ==> nodes[i] in N
    modifies N`Groups, N`Proxy, N`Parent, EntityRepr(groups), EntityRepr(proxy), AccountRepr(parent)
    ensures fresh(S)
    ensures Reports(r, OrElse(GroupsError(st, old(EntityValue(groups)), rows),
                       OrElse(EntityError(st.proxies, old(EntityValue(proxy)), Keys(rows, ProxyId)),
                              AccountError(st, old(AccountValue(parent)), Keys(rows, ParentAccountId)))))
    ensures r.Ok? ==> GroupsDenote(nodes, GroupsEdge(st, old(EntityValue(groups)), rows))
    ensures r.Ok? ==> ProxiesDenote(nodes, EntityEdge(st.proxies, old(EntityValue(proxy)), Keys(rows, ProxyId)))
    ensures r.Ok? ==> ParentsDenote(S, nodes, AccountEdge(st, old(AccountValue(parent)), Keys(rows, ParentAccountId)))
    ensures r.Ok? ==> EntityValue(groups) == AfterGroups(old(EntityValue(groups)), rows)
    ensures r.Ok? ==> EntityValue(proxy) == AfterEntities(old(EntityValue(proxy)), Keys(rows, ProxyId))
    ensures proxy != null ==> proxy.joins == []
    ensures r.Ok? ==> MaybeValid(parent) && (parent != null ==> parent.Subs == old(parent.Subs))
    ensures r.Ok? ==> AccountRepr(parent) == old(AccountRepr(parent))
    ensures r.Ok? ==> AccountValue(parent) == AfterAccounts(st, old(AccountValue(parent)), Keys(rows, ParentAccountId))
    decreases AccountRepr(parent), 10
  {
    hide GroupsDenote, ProxiesDenote, ParentsDenote, GroupsEdge, EntityEdge, AccountEdge;
    hide GroupsError, EntityError, AccountError, AfterGroups, AfterEntities, AfterAccounts;
    hide WellTyped, Carries, DistinctNodes, EntityValue, AccountValue, MaybeValid;
    S := {};
    r := GroupsStep(st, groups, nodes, columns, rows);
    if r.Ok? {
      KeptMaybe(parent);
      assert EntityValue(proxy) == old(EntityValue(proxy));
      label One:
      r, S := LoadProxyParent(st, proxy, parent, nodes, columns, rows, N);
      assert EntityValue(groups) == old@One(EntityValue(groups));
    }
  }

  method LoadLogsJoins(
    st: Store, logs: EntityQuery?, joins: AccountGroupQuery?, nodes: seq<Account>, ghost columns: seq<Column>,
    ghost rows: seq<Row>, ghost N: set<Account>)
    returns (r: Outcome, ghost S: set<object>)
    requires WellTyped(st) && Carries(nodes, columns, rows) && Id in columns && DistinctNodes(nodes)
    requires MaybeValidJoin(joins) && (logs != null ==> logs.joins == [])
    requires EntityRepr(logs) !! GroupsRepr(joins)
    requires forall i :: 0 <= i < |nodes| ==> nodes[i].UsageLogs == [] && nodes[i].AccountGroups == []
    requires N !! GroupsRepr(joins) && forall i :: 0 <= i < |nodes| ==> nodes[i] in N
    modifies N`UsageLogs, N`AccountGroups, EntityRepr(logs), GroupsRepr(joins)
    ensures fresh(S)
    ensures Reports(r, OrElse(LogsError(st, old(EntityValue(logs))), JoinsError(st, old(JoinValue(joins)), rows)))
    ensures r.Ok? ==> LogsDenote(nodes, LogsEdge(st, old(EntityValue(logs)), rows))
    ensures r.Ok? ==> AccountGroupsDenote(S, nodes, JoinsEdge(st, old(JoinValue(joins)), rows))
    ensures r.Ok? ==> EntityValue(logs) == AfterLogs(old(EntityValue(logs)), rows)
    ensures logs != null ==> logs.joins == []
    ensures r.Ok? ==> MaybeValidJoin(joins) && (joins != null ==> joins.Subs == old(joins.Subs))
    ensures r.Ok? ==> JoinValue(joins) == AfterJoins(st, old(JoinValue(joins)), rows)
    decreases GroupsRepr(joins), 9
  {
    hide LogsDenote, AccountGroupsDenote, LogsEdge, JoinsEdge, LogsError, JoinsError, AfterLogs, AfterJoins;
    S := {};
    r := LogsStep(st, logs, nodes, columns, rows);
    if r.Ok? {
      KeptMaybeJoin(joins);
      label One:
      r, S := JoinsStep(st, joins, nodes, columns, rows);
      assert EntityValue(logs) == old@One(EntityValue(logs));
    }
  }

  method LoadChildrenLogsJoins(
    st: Store, children: AccountQuery?, logs: EntityQuery?, joins: AccountGroupQuery?, nodes: seq<Account>,
    ghost columns: seq<Column>, ghost rows: seq<Row>, ghost N: set<Account>)
    returns (r: Outcome, ghost C: set<object>, ghost J: set<object>)
    requires WellTyped(st) && Carries(nodes, columns, rows) && Id in columns && DistinctNodes(nodes)
    requires MaybeValid(children) && MaybeValidJoin(joins) && (logs != null ==> logs.joins == [])
    requires AccountRepr(children) !! EntityRepr(logs) !! GroupsRepr(joins)
    requires forall i :: 0 <= i < |nodes| ==>
               nodes[i].Children == [] && nodes[i].UsageLogs == [] && nodes[i].AccountGroups == []
    requires N !! AccountRepr(children) && N !! GroupsRepr(joins) && forall i :: 0 <= i < |nodes| ==> nodes[i] in N
    modifies N`Children, N`UsageLogs, N`AccountGroups, AccountRepr(children), EntityRepr(logs), GroupsRepr(joins)
    ensures fresh(C) && fresh(J)
    ensures Reports(r, OrElse(ChildrenError(st, old(AccountValue(children)), rows),
                       OrElse(LogsError(st, old(EntityValue(logs))), JoinsError(st, old(JoinValue(joins)), rows))))
    ensures r.Ok? ==> ChildrenDenote(C, nodes, ChildrenEdge(st, old(AccountValue(children)), rows))
    ensures r.Ok? ==> LogsDenote(nodes, LogsEdge(st, old(EntityValue(logs)), rows))
    ensures r.Ok? ==> AccountGroupsDenote(J, nodes, JoinsEdge(st, old(JoinValue(joins)), rows))
    ensures r.Ok? ==> MaybeValid(children) && (children != null ==> children.Subs == old(children.Subs))
    ensures r.Ok? ==> AccountValue(children) == AfterChildren(st, old(AccountValue(children)), rows)
    ensures r.Ok? ==> EntityValue(logs) == AfterLogs(old(EntityValue(logs)), rows)
    ensures logs != null ==> logs.joins == []
    ensures r.Ok? ==> MaybeValidJoin(joins) && (joins != null ==> joins.Subs == old(joins.Subs))
    ensures r.Ok? ==> JoinValue(joins) == AfterJoins(st, old(JoinValue(joins)), rows)
    decreases AccountRepr(children) + GroupsRepr(joins), 10
  {
    hide ChildrenDenote, LogsDenote, AccountGroupsDenote, ChildrenEdge, LogsEdge, JoinsEdge;
    hide ChildrenError, LogsError, JoinsError, AfterChildren, AfterLogs, AfterJoins;
    hide WellTyped, Carries, DistinctNodes, EntityValue, AccountValue, JoinValue, MaybeValid, MaybeValidJoin;
    J := {};
    r, C := ChildrenStep(st, children, nodes, columns, rows);
    if r.Ok? {
      KeptMaybeJoin(joins);
      assert EntityValue(logs) == old(EntityValue(logs));
      assert C !! EntityRepr(logs) && C !! GroupsRepr(joins) && forall i :: 0 <= i < |nodes| ==> nodes[i] !in C;
      label One:
      r, J := LoadLogsJoins(st, logs, joins, nodes, columns, rows, N);
      KeptMaybe@One(children);
    }
  }

  // A query whose subqueries are valid trees on their old footprints.
  twostate lemma Rebuild(query: AccountQuery)
    requires old(query.Valid())
    requires unchanged(query, query.ctx)
    requires MaybeValid(query.withParent) && MaybeValid(query.withChildren) && MaybeValidJoin(query.withAccountGroups)
    requires query.withParent != null ==> query.withParent.Subs == old(query.withParent.Subs)
    requires query.withChildren != null ==> query.withChildren.Subs == old(query.withChildren.Subs)
    requires query.withAccountGroups != null ==> query.withAccountGroups.Subs == old(query.withAccountGroups.Subs)
    requires query.withProxy != null ==> query.withProxy.joins == []
    requires query.withUsageLogs != null ==> query.withUsageLogs.joins == []
    ensures query.Valid()
    ensures query.Edges() == EdgesQ(
              EntityValue(query.withGroups), EntityValue(query.withProxy), AccountValue(query.withParent),
              AccountValue(query.withChildren), EntityValue(query.withUsageLogs), JoinValue(query.withAccountGroups))
  {
  }

  // The node that Assign has made, with no edge yet.
  ghost predicate Bare(nodes: seq<Account>)
    reads nodes
  {
    forall i :: 0 <= i < |nodes| ==>
      nodes[i].Groups == [] && nodes[i].Proxy == null && nodes[i].Parent == null
      && nodes[i].Children == [] && nodes[i].UsageLogs == [] && nodes[i].AccountGroups == []
  }

  // The six edges, for six subqueries with disjoint footprints.
  method LoadSix(
    st: Store, groups: EntityQuery?, proxy: EntityQuery?, parent: AccountQuery?, children: AccountQuery?,
    logs: EntityQuery?, joins: AccountGroupQuery?, nodes: seq<Account>, ghost columns: seq<Column>,
    ghost rows: seq<Row>, ghost D: set<object>, ghost N: set<Account>, ghost e: EdgesQ)
    returns (r: Outcome, ghost P: set<object>, ghost C: set<object>, ghost J: set<object>)
    requires WellTyped(st) && Carries(nodes, columns, rows) && Id in columns && DistinctNodes(nodes) && Bare(nodes)
    requires proxy != null ==> proxy.joins == [] && ProxyId in columns
    requires parent != null ==> ParentAccountId in columns
    requires logs != null ==> logs.joins == []
    requires MaybeValid(parent) && MaybeValid(children) && MaybeValidJoin(joins)
    requires e == EdgesQ(
               EntityValue(groups), EntityValue(proxy), AccountValue(parent), AccountValue(children),
               EntityValue(logs), JoinValue(joins))
    requires EntityRepr(groups) !! EntityRepr(proxy) !! AccountRepr(parent) !! AccountRepr(children)
               !! EntityRepr(logs) !! GroupsRepr(joins)
    requires EntityRepr(groups) + EntityRepr(proxy) + EntityRepr(logs) <= D
    requires AccountRepr(parent) < D && AccountRepr(children) + GroupsRepr(joins) < D
    requires N !! D && forall i :: 0 <= i < |nodes| ==> nodes[i] in N
    modifies N`Groups, N`Proxy, N`Parent, N`Children, N`UsageLogs, N`AccountGroups
    modifies EntityRepr(groups), EntityRepr(proxy), AccountRepr(parent), AccountRepr(children), EntityRepr(logs),
               GroupsRepr(joins)
    ensures fresh(P) && fresh(C) && fresh(J)
    ensures Reports(r, EdgesErrorOf(st, e, rows))
    ensures r.Ok? ==> EdgesDenote(st, e, rows, nodes, P, C, J)
    ensures r.Ok? ==> MaybeValid(parent) && MaybeValid(children) && MaybeValidJoin(joins)
    ensures r.Ok? ==> AfterEdgesOf(st, e, rows) == EdgesQ(
              EntityValue(groups), EntityValue(proxy), AccountValue(parent), AccountValue(children), EntityValue(logs),
              JoinValue(joins))
    ensures r.Ok? ==> (proxy != null ==> proxy.joins == []) && (logs != null ==> logs.joins == [])
    ensures r.Ok? && parent != null ==> parent.Subs == old(parent.Subs)
    ensures r.Ok? && children != null ==> children.Subs == old(children.Subs)
    ensures r.Ok? && joins != null ==> joins.Subs == old(joins.Subs)
    decreases D, 0
  {
    hide GroupsDenote, ProxiesDenote, ParentsDenote, ChildrenDenote, LogsDenote, AccountGroupsDenote;
    hide GroupsEdge, EntityEdge, AccountEdge, ChildrenEdge, LogsEdge, JoinsEdge;
    hide GroupsError, EntityError, AccountError, ChildrenError, LogsError, JoinsError;
    hide AfterGroups, AfterEntities, AfterAccounts, AfterChildren, AfterLogs, AfterJoins;
    hide WellTyped, Carries, DistinctNodes, EntityValue, AccountValue, JoinValue, MaybeValid, MaybeValidJoin;
    hide AccountRepr, GroupsRepr, EntityRepr;
    C, J := {}, {};
    r, P := LoadGroupsProxyParent(st, groups, proxy, parent, nodes, columns, rows, N);
    if r.Err? {
      return;
    }
    KeptMaybe(children);
    KeptMaybeJoin(joins);
    KeptEntity(logs);
    label Between:
    r, C, J := LoadChildrenLogsJoins(st, children, logs, joins, nodes, columns, rows, N);
    if r.Ok? {
      KeptMaybe@Between(parent);
      KeptEntity@Between(groups);
      KeptEntity@Between(proxy);
    }
  }

  // The six edges of non-empty nodes, and the query afterwards.
  method LoadEdges(
    st: Store, query: AccountQuery, nodes: seq<Account>, ghost columns: seq<Column>, ghost rows: seq<Row>,
    ghost N: set<Account>, ghost e: EdgesQ)
    returns (r: Outcome, ghost P: set<object>, ghost C: set<object>, ghost J: set<object>)
    requires WellTyped(st) && query.Valid() && e == query.Edges() && Carries(nodes, columns, rows) && Id in columns
               && DistinctNodes(nodes)
    requires query.withProxy != null ==> ProxyId in columns
    requires query.withParent != null ==> ParentAccountId in columns
    requires Bare(nodes) && N !! query.Repr() && forall i :: 0 <= i < |nodes| ==> nodes[i] in N
    modifies N`Groups, N`Proxy, N`Parent, N`Children, N`UsageLogs, N`AccountGroups, query.Subs
    ensures Carries(nodes, columns, rows) && fresh(P) && fresh(C) && fresh(J)
    ensures Reports(r, EdgesErrorOf(st, e, rows))
    ensures r.Ok? ==> EdgesDenote(st, e, rows, nodes, P, C, J)
    ensures r.Ok? ==> query.Valid() && query.Subs == old(query.Subs)
    ensures r.Ok? ==> query.Edges() == AfterEdgesOf(st, e, rows)
    decreases query.Repr(), 1
  {
    hide GroupsDenote, ProxiesDenote, ParentsDenote, ChildrenDenote, LogsDenote, AccountGroupsDenote;
    hide GroupsEdge, EntityEdge, AccountEdge, ChildrenEdge, LogsEdge, JoinsEdge;
    hide GroupsError, EntityError, AccountError, ChildrenError, LogsError, JoinsError;
    hide AfterGroups, AfterEntities, AfterAccounts, AfterChildren, AfterLogs, AfterJoins;
    hide WellTyped, Carries, DistinctNodes, Bare, EdgesDenote, EdgesErrorOf, AfterEdgesOf;
    hide AccountQuery.Valid, AccountQuery.Separate, AccountQuery.Edges, AccountValue, JoinValue, EntityValue;
    hide AccountRepr, GroupsRepr, EntityRepr, MaybeValid, MaybeValidJoin;
    SmallerParts(query);
    r, P, C, J := LoadSix(
      st, query.withGroups, query.withProxy, query.withParent, query.withChildren, query.withUsageLogs,
      query.withAccountGroups, nodes, columns, rows, query.Repr(), N, e);
    if r.Ok? {
      Rebuild(query);
    }
  }

  // The six edges of the nodes are the batched edges of the rows.
  ghost predicate EdgesDenote(
    st: Store, e: EdgesQ, rows: seq<Row>, nodes: seq<Account>, P: set<object>, C: set<object>, J: set<object>)
    reads nodes`Groups, nodes`Proxy, nodes`Parent, nodes`Children, nodes`UsageLogs, nodes`AccountGroups, P, C, J
  {
    && GroupsDenote(nodes, GroupsEdge(st, e.groups, rows))
    && ProxiesDenote(nodes, EntityEdge(st.proxies, e.proxy, Keys(rows, ProxyId)))
    && ParentsDenote(P, nodes, AccountEdge(st, e.parent, Keys(rows, ParentAccountId)))
    && ChildrenDenote(C, nodes, ChildrenEdge(st, e.children, rows))
    && LogsDenote(nodes, LogsEdge(st, e.usageLogs, rows))
    && AccountGroupsDenote(J, nodes, JoinsEdge(st, e.accountGroups, rows))
  }

  // A node with its scalars and its six edges is the batched node of its row.
  lemma Assembled(
    st: Store, fields: seq<Column>, e: EdgesQ, rows: seq<Row>, nodes: seq<Account>, P: set<object>, C: set<object>,
    J: set<object>, S: set<object>, i: nat)
    requires |nodes| == |rows| && i < |nodes| && nodes[i] in S && P + C + J <= S
    requires nodes[i].fields
            == Decode(AccountColumns(st.accounts.columns, fields, e.proxy.Some?, e.parent.Some?), rows[i])
    requires nodes[i].loadedTypes == e.LoadedTypes()
    requires EdgesDenote(st, e, rows, nodes, P, C, J)
    ensures AccountDenotes(S, nodes[i], LoadedNode(st, fields, e, rows, i))
  {
    var n := nodes[i];
    GrowParent(P, S, n.Parent, AccountEdge(st, e.parent, Keys(rows, ParentAccountId))[i]);
    GrowAll(C, S, n.Children, ChildrenEdge(st, e.children, rows)[i]);
    GrowJoins(J, S, n.AccountGroups, JoinsEdge(st, e.accountGroups, rows)[i]);
  }

  // ---- sqlAll ---------------------------------------------------------------------------------

  ghost predicate ScannedNodes(nodes: seq<Account>, columns: seq<Column>, rows: seq<Row>, loadedTypes: seq<bool>)
    reads nodes
  {
    && Carries(nodes, columns, rows) && Bare(nodes) && DistinctNodes(nodes)
    && forall i :: 0 <= i < |nodes| ==> nodes[i].loadedTypes == loadedTypes
  }

  // The nodes, all in N, that the scan of `rows` has made for the query.
  ghost predicate ScannedFor(
    st: Store, query: AccountQuery, nodes: seq<Account>, columns: seq<Column>, rows: seq<Row>, N: set<Account>)
    reads query, query.ctx, nodes
  {
    && columns == AccountColumns(
      st.accounts.columns, query.ctx.Fields, query.withProxy != null, query.withParent != null)
    && ScannedNodes(nodes, columns, rows, Flags(query))
    && forall i :: 0 <= i < |nodes| ==> nodes[i] in N
  }

  function Flags(query: AccountQuery): (r: seq<bool>)
    reads query
  {
    [query.withGroups != null, query.withProxy != null, query.withParent != null,
     query.withChildren != null, query.withUsageLogs != null, query.withAccountGroups != null]
  }

  lemma FlagsOf(query: AccountQuery)
    requires query.Valid()
    ensures query.Edges().LoadedTypes() == Flags(query)
    ensures query.Edges().proxy.Some? == (query.withProxy != null)
              && query.Edges().parent.Some? == (query.withParent != null)
  {
  }

  lemma SelectedTyped(st: Store, sel: Selection)
    requires WellTyped(st)
    ensures forall r :: r in Select(st.accounts.rows, sel) ==> TypedRow(r) && CellOf(r, Id).IntCell?
  {
    SelectMembers(st.accounts.rows, sel);
  }

  lemma ScannedToNodes(nodes: seq<Account>, columns: seq<Column>, rows: seq<Row>, loadedTypes: seq<bool>)
    requires DistinctNodes(nodes) && ScannedAll(nodes, DecodeAll(columns, rows), loadedTypes)
    ensures ScannedNodes(nodes, columns, rows, loadedTypes)
  {
    assert forall i :: 0 <= i < |nodes| ==> ScannedNode(nodes[i], Decode(columns, rows[i]), loadedTypes);
  }

  // querySpec and the scan loop, once the fields are known to be columns.
  method ScanRows(st: Store, query: AccountQuery) returns (nodes: seq<Account>, ghost columns: seq<Column>)
    requires WellTyped(st) && FieldError(query.ctx.Fields, st.accounts.columns).None?
    ensures forall i :: 0 <= i < |nodes| ==> fresh(nodes[i])
    ensures columns == AccountColumns(
              st.accounts.columns, query.ctx.Fields, query.withProxy != null, query.withParent != null)
    ensures ScannedNodes(nodes, columns, Select(st.accounts.rows, query.Sel()), Flags(query))
  {
    var selected := AccountSpec(
      query.ctx.Fields, st.accounts.columns, query.withProxy != null, query.withParent != null);
    columns := selected;
    AccountColumnsKnown(st.accounts.columns, query.ctx.Fields, query.withProxy != null, query.withParent != null);
    SelectedTyped(st, query.Sel());
    nodes := NewAccounts(selected, Select(st.accounts.rows, query.Sel()), Flags(query));
    ScannedToNodes(nodes, columns, Select(st.accounts.rows, query.Sel()), Flags(query));
  }

  // prepareQuery, querySpec and the scan loop.
  method ScanAccounts(st: Store, query: AccountQuery)
    returns (r: Outcome, nodes: seq<Account>, ghost columns: seq<Column>, ghost N: set<Account>)
    requires WellTyped(st) && query.Valid()
    ensures Reports(r, FieldError(query.ctx.Fields, st.accounts.columns))
    ensures fresh(N) && (r.Ok? ==> ScannedFor(st, query, nodes, columns, Select(st.accounts.rows, query.Sel()), N))
  {
    hide WellTyped, Select, FieldError, AccountColumns, ScannedNodes, Flags, AccountQuery.Valid, AccountQuery.Separate;
    nodes, columns, N := [], [], {};
    r := PrepareQuery(query.ctx.Fields, st.accounts.columns);
    if r.Ok? {
      nodes, columns := ScanRows(st, query);
      N := set n | n in nodes;
    }
  }

  lemma SelectedKeyColumns(st: Store, fields: seq<Column>, withProxy: bool, withParent: bool)
    requires WellTyped(st)
    ensures Id in AccountColumns(st.accounts.columns, fields, withProxy, withParent)
    ensures withProxy ==> ProxyId in AccountColumns(st.accounts.columns, fields, withProxy, withParent)
    ensures withParent ==> ParentAccountId in AccountColumns(st.accounts.columns, fields, withProxy, withParent)
  {
    var base := [Id] + Filter(NotId(), fields);
    assert base[0] == Id;
    MaybeKeeps(base, withProxy, ProxyId, Id);
    MaybeKeeps(MaybeOnce(base, withProxy, ProxyId), withParent, ParentAccountId, Id);
    MaybeKeeps(MaybeOnce(base, withProxy, ProxyId), withParent, ParentAccountId, ProxyId);
  }

  lemma MaybeKeeps(columns: seq<Column>, wanted: bool, c: Column, d: Column)
    ensures d in columns ==> d in MaybeOnce(columns, wanted, c)
    ensures wanted ==> c in MaybeOnce(columns, wanted, c)
  {
  }

  lemma AllAssembled(
    st: Store, fields: seq<Column>, e: EdgesQ, rows: seq<Row>, nodes: seq<Account>, P: set<object>, C: set<object>,
    J: set<object>, N: set<Account>)
    requires forall i :: 0 <= i < |nodes| ==> nodes[i] in N
    requires Carries(nodes, AccountColumns(st.accounts.columns, fields, e.proxy.Some?, e.parent.Some?), rows)
    requires forall i :: 0 <= i < |nodes| ==> nodes[i].loadedTypes == e.LoadedTypes()
    requires EdgesDenote(st, e, rows, nodes, P, C, J)
    ensures AccountsDenote(P + C + J + N, nodes, Loaded(st, fields, e, rows))
  {
    forall i | 0 <= i < |nodes|
      ensures AccountDenotes(P + C + J + N, nodes[i], LoadedNode(st, fields, e, rows, i))
    {
      assert nodes[i] in N;
      Assembled(st, fields, e, rows, nodes, P, C, J, P + C + J + N, i);
    }
  }

  // What LoadEdges and AllAssembled need to know about scanned nodes.
  lemma ScannedParts(
    st: Store, query: AccountQuery, nodes: seq<Account>, columns: seq<Column>, rows: seq<Row>, N: set<Account>,
    e: EdgesQ)
    requires WellTyped(st) && query.Valid() && e == query.Edges() && ScannedFor(st, query, nodes, columns, rows, N)
    ensures Carries(nodes, columns, rows) && Bare(nodes) && DistinctNodes(nodes) && Id in columns
    ensures query.withProxy != null ==> ProxyId in columns
    ensures query.withParent != null ==> ParentAccountId in columns
    ensures columns == AccountColumns(st.accounts.columns, query.ctx.Fields, e.proxy.Some?, e.parent.Some?)
    ensures forall i :: 0 <= i < |nodes| ==> nodes[i] in N && nodes[i].loadedTypes == e.LoadedTypes()
  {
    FlagsOf(query);
    SelectedKeyColumns(st, query.ctx.Fields, query.withProxy != null, query.withParent != null);
  }

  method FinishSome(
    st: Store, query: AccountQuery, nodes: seq<Account>, ghost columns: seq<Column>, ghost rows: seq<Row>,
    ghost N: set<Account>, ghost fields: seq<Column>, ghost e: EdgesQ)
    returns (r: Outcome, ghost F: set<object>)
    requires WellTyped(st) && query.Valid() && fields == query.ctx.Fields && e == query.Edges()
    requires N !! query.Repr() && ScannedFor(st, query, nodes, columns, rows, N)
    modifies N`Groups, N`Proxy, N`Parent, N`Children, N`UsageLogs, N`AccountGroups, query.Subs
    ensures fresh(F)
    ensures Reports(r, EdgesErrorOf(st, e, rows))
    ensures r.Ok? ==> AccountsDenote(F + N, nodes, Loaded(st, fields, e, rows))
    ensures r.Ok? ==> query.Valid() && query.Subs == old(query.Subs)
    ensures r.Ok? ==> query.Edges() == AfterEdgesOf(st, e, rows)
    decreases query.Repr(), 2
  {
    hide EdgesDenote, AccountsDenote, Loaded, EdgesErrorOf, AfterEdgesOf, AccountColumns, Carries, Bare;
    hide DistinctNodes, ScannedFor;
    hide WellTyped, AccountQuery.Valid, AccountQuery.Separate, AccountQuery.Edges, EdgesQ.LoadedTypes, Flags;
    ScannedParts(st, query, nodes, columns, rows, N, e);
    ghost var P, C, J;
    r, P, C, J := LoadEdges(st, query, nodes, columns, rows, N, e);
    F := P + C + J;
    if r.Ok? {
      AllAssembled(st, fields, e, rows, nodes, P, C, J, N);
    }
  }

  method FinishAccounts(
    st: Store, query: AccountQuery, nodes: seq<Account>, ghost columns: seq<Column>, ghost rows: seq<Row>,
    ghost N: set<Account>, ghost fields: seq<Column>, ghost e: EdgesQ)
    returns (r: Outcome, ghost F: set<object>)
    requires WellTyped(st) && query.Valid() && fields == query.ctx.Fields && e == query.Edges()
    requires N !! query.Repr() && ScannedFor(st, query, nodes, columns, rows, N)
    modifies N`Groups, N`Proxy, N`Parent, N`Children, N`UsageLogs, N`AccountGroups, query.Subs
    ensures fresh(F)
    ensures Reports(r, EdgesError(st, e, rows))
    ensures r.Ok? ==> AccountsDenote(F + N, nodes, Loaded(st, fields, e, rows))
    ensures r.Ok? ==> query.Valid() && query.Subs == old(query.Subs)
    ensures r.Ok? ==> query.Edges() == AfterEdges(st, e, rows)
    decreases query.Repr(), 3
  {
    hide WellTyped, AccountQuery.Valid, AccountQuery.Separate, AccountQuery.Edges, ScannedFor, ScannedNodes;
    hide AccountColumns, EdgesErrorOf, AfterEdgesOf;
    ScannedParts(st, query, nodes, columns, rows, N, e);
    if |nodes| == 0 {
      r, F := Ok(()), {};
    } else {
      r, F := FinishSome(st, query, nodes, columns, rows, N, fields, e);
    }
  }

  lemma OutsideSubs(query: AccountQuery)
    requires query.Valid()
    ensures query !in query.Subs && query.ctx !in query.Subs
  {
  }

  method AccountsAll(st: Store, query: AccountQuery) returns (r: Outcome, nodes: seq<Account>, ghost S: set<object>)
    requires WellTyped(st) && query.Valid()
    modifies query.Subs
    ensures fresh(S)
    ensures Reports(r, RunError(st, query.Sel(), old(query.Edges())))
    ensures r.Ok? ==> AccountsDenote(S, nodes,
                Loaded(st, query.ctx.Fields, old(query.Edges()), Select(st.accounts.rows, query.Sel())))
    ensures r.Ok? ==> query.Valid() && query.Subs == old(query.Subs)
    ensures r.Ok? ==> query.Edges() == AfterEdges(st, old(query.Edges()), Select(st.accounts.rows, query.Sel()))
    decreases query.Repr(), 4
  {
    hide AccountsDenote, Loaded, EdgesError, AfterEdges, ScannedFor, ScannedNodes, AccountColumns, WellTyped;
    hide FieldError, Flags, Select;
    hide AccountQuery.Valid, AccountQuery.Separate, AccountQuery.Edges;
    OutsideSubs(query);
    ghost var columns, N;
    S := {};
    r, nodes, columns, N := ScanAccounts(st, query);
    if r.Err? {
      return;
    }
    ghost var sel, e := query.Sel(), query.Edges();
    r, S := FinishAccounts(st, query, nodes, columns, Select(st.accounts.rows, sel), N, sel.fields, e);
    S := S + N;
    assert query.Sel() == sel;
  }
}
