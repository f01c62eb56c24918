// A clone loads the graph of its original, and running it leaves the original as it
// was (backend/ent/account_query.go:386-408; backend/ent/accountgroup_query.go:218-236).
module Cloning {
  import opened Lists
  import opened Rows
  import opened EagerSpec
  import opened Queries
  import opened NaiveJoin
  import opened Denotation
  import opened Loaders
  import opened EagerLoading
  import opened EagerTheorems
  import opened Entities
  import opened Rerun

  // A clone loads what the original would load, and fails where it would fail.
  lemma {:induction false} CloneLoadsAlike(st: Store, fields: seq<Column>, e: EdgesQ, rows: seq<Row>)
    ensures EdgesError(st, CloneEdges(e), rows) == EdgesError(st, e, rows)
    ensures Loaded(st, fields, CloneEdges(e), rows) == Loaded(st, fields, e, rows)
    decreases e, 1
  {
    hide GroupsError, EntityError, AccountError, ChildrenError, LogsError, JoinsError;
    hide GroupsEdge, EntityEdge, AccountEdge, ChildrenEdge, LogsEdge, JoinsEdge, Loaded, EdgesQ.LoadedTypes;
    hide CloneMaybeEntity, CloneMaybeAccount, CloneMaybeJoin;
    CloneKinds(e);
    CloneGroupsAlike(st, e.groups, rows);
    CloneEntitiesAlike(st.proxies, e.proxy, Keys(rows, ProxyId));
    CloneLogsAlike(st, e.usageLogs, rows);
    CloneAccountsAlike(st, e.parent, Keys(rows, ParentAccountId));
    CloneChildrenAlike(st, e.children, rows);
    CloneJoinsAlike(st, e.accountGroups, rows);
    assert EdgesErrorOf(st, CloneEdges(e), rows) == EdgesErrorOf(st, e, rows);
    SameNodes(st, fields, e, CloneEdges(e), rows);
  }

  lemma CloneKinds(e: EdgesQ)
    ensures CloneEdges(e).LoadedTypes() == e.LoadedTypes()
    ensures CloneEdges(e).proxy.Some? == e.proxy.Some? && CloneEdges(e).parent.Some? == e.parent.Some?
  {
  }

  lemma CloneJoinKinds(q: AccountGroupQ)
    ensures CloneGroups(q).account.Some? == q.account.Some? && CloneGroups(q).group.Some? == q.group.Some?
  {
  }

  lemma Unmodified(rows: seq<Row>, sel: Selection, f: Column, p: Predicate)
    ensures Select(rows, sel.(modifiers := []).Where(p)) == Select(rows, sel.Where(p))
    ensures Select(rows, sel.(modifiers := []).WithField(f).Where(p)) == Select(rows, sel.WithField(f).Where(p))
    ensures sel.(modifiers := []).WithField(f).fields == sel.WithField(f).fields
  {
  }

  lemma CloneGroupsAlike(st: Store, q: Option<EntityQ>, rows: seq<Row>)
    ensures GroupsError(st, CloneMaybeEntity(q), rows) == GroupsError(st, q, rows)
    ensures GroupsEdge(st, CloneMaybeEntity(q), rows) == GroupsEdge(st, q, rows)
  {
    hide Page, Filter, Sort, JoinedBy, JoinedValues, JoinedColumns, GatherAll, DecodeAll, EntityColumns, FieldError;
    if q.Some? {
      var ids, unmodified := Ints(rows, Id), CloneMaybeEntity(q).value;
      assert JoinResult(st, unmodified, ids) == JoinResult(st, q.value, ids);
      SameColumns(st, q.value);
      assert JoinPanics(st, unmodified, ids) == JoinPanics(st, q.value, ids);
    }
  }

  lemma SameColumns(st: Store, q: EntityQ)
    ensures JoinedColumns(st, q.(sel := q.sel.(modifiers := []))) == JoinedColumns(st, q)
  {
  }

  lemma CloneEntitiesAlike(t: Table, q: Option<EntityQ>, keys: seq<Option<int>>)
    ensures EntityError(t, CloneMaybeEntity(q), keys) == EntityError(t, q, keys)
    ensures EntityEdge(t, CloneMaybeEntity(q), keys) == EntityEdge(t, q, keys)
  {
    hide Select, InValues, LinkAll, DecodeAll, EntityColumns, FieldError, Distinct, AppendOnce;
    if q.Some? {
      Unmodified(t.rows, q.value.sel, Id, InValues(Id, Distinct(keys)));
    }
  }

  lemma CloneLogsAlike(st: Store, q: Option<EntityQ>, rows: seq<Row>)
    ensures LogsError(st, CloneMaybeEntity(q)) == LogsError(st, q)
    ensures LogsEdge(st, CloneMaybeEntity(q), rows) == LogsEdge(st, q, rows)
  {
    hide Select, InValues, FanAll, DecodeAll, EntityColumns, FieldError, Selection.WithField;
    if q.Some? {
      Unmodified(st.usageLogs.rows, q.value.sel, AccountId, InValues(AccountId, Ints(rows, Id)));
    }
  }

  lemma {:induction false} CloneAccountsAlike(st: Store, q: Option<AccountQ>, keys: seq<Option<int>>)
    ensures AccountError(st, CloneMaybeAccount(q), keys) == AccountError(st, q, keys)
    ensures AccountEdge(st, CloneMaybeAccount(q), keys) == AccountEdge(st, q, keys)
    decreases q
  {
    hide Select, InValues, LinkAll, Loaded, EdgesError, FieldError, Distinct, CloneEdges, AppendOnce, Ints;
    if q.Some? {
      var sel := ParentSelection(q.value.sel, keys);
      Unmodified(st.accounts.rows, q.value.sel, Id, InValues(Id, Distinct(keys)));
      CloneLoadsAlike(st, sel.fields, q.value.edges, Select(st.accounts.rows, sel));
    }
  }

  lemma {:induction false} CloneChildrenAlike(st: Store, q: Option<AccountQ>, rows: seq<Row>)
    ensures ChildrenError(st, CloneMaybeAccount(q), rows) == ChildrenError(st, q, rows)
    ensures ChildrenEdge(st, CloneMaybeAccount(q), rows) == ChildrenEdge(st, q, rows)
    decreases q
  {
    hide Select, InValues, FanAll, Loaded, EdgesError, FieldError, Selection.WithField, CloneEdges;
    if q.Some? {
      var sel := ChildSelection(q.value.sel, Ints(rows, Id));
      Unmodified(st.accounts.rows, q.value.sel, ParentAccountId, InValues(ParentAccountId, Ints(rows, Id)));
      CloneLoadsAlike(st, sel.fields, q.value.edges, Select(st.accounts.rows, sel));
    }
  }

  lemma {:induction false} CloneJoinsAlike(st: Store, q: Option<AccountGroupQ>, rows: seq<Row>)
    ensures JoinsError(st, CloneMaybeJoin(q), rows) == JoinsError(st, q, rows)
    ensures JoinsEdge(st, CloneMaybeJoin(q), rows) == JoinsEdge(st, q, rows)
    decreases q
  {
    hide Select, InValues, FanAll, LoadedGroups, FieldError, Selection.WithField, AccountError, EntityError;
    hide AccountEdge, EntityEdge, CloneMaybeAccount, CloneMaybeEntity, Ints;
    if q.Some? {
      CloneJoinKinds(q.value);
      var sel := JoinSelection(q.value.sel, Ints(rows, Id));
      var batch := Select(st.accountGroups.rows, sel);
      Unmodified(st.accountGroups.rows, q.value.sel, AccountId, InValues(AccountId, Ints(rows, Id)));
      CloneAccountsAlike(st, q.value.account, Somes(Ints(batch, AccountId)));
      CloneEntitiesAlike(st.groups, q.value.group, Somes(Ints(batch, GroupId)));
      SameJoinNodes(st, sel.fields, q.value, CloneGroups(q.value), batch);
      assert JoinEdgesError(st, CloneGroups(q.value), batch) == JoinEdgesError(st, q.value, batch);
    }
  }

  // ---- the step that a clone lacks --------------------------------------------------------

  predicate Unlocked(q: Option<EntityQ>) {
    q.Some? ==> q.value.sel.modifiers == []
  }

  // No query of the tree has a modifier.
  predicate NoModifiers(q: AccountQ)
    decreases q, 1
  {
    q.sel.modifiers == [] && EdgesUnlocked(q.edges)
  }

  predicate EdgesUnlocked(e: EdgesQ)
    decreases e, 0
  {
    && Unlocked(e.groups) && Unlocked(e.proxy) && Unlocked(e.usageLogs)
    && (e.parent.Some? ==> NoModifiers(e.parent.value))
    && (e.children.Some? ==> NoModifiers(e.children.value))
    && (e.accountGroups.Some? ==> NoModifiersBelow(e.accountGroups.value))
  }

  predicate NoModifiersBelow(q: AccountGroupQ)
    decreases q, 1
  {
    q.sel.modifiers == [] && Unlocked(q.group) && (q.account.Some? ==> NoModifiers(q.account.value))
  }

  // A clone denotes the query of its original exactly if no query of the tree has a modifier.
  lemma {:induction false} CloneIsSameIff(q: AccountQ)
    ensures CloneAccounts(q) == q <==> NoModifiers(q)
    decreases q, 1
  {
    CloneEdgesSameIff(q.edges);
    UnmodifiedIff(q.sel);
  }

  lemma UnmodifiedIff(sel: Selection)
    ensures sel.(modifiers := []) == sel <==> sel.modifiers == []
  {
  }

  lemma {:induction false} CloneEdgesSameIff(e: EdgesQ)
    ensures CloneEdges(e) == e <==> EdgesUnlocked(e)
    decreases e, 0
  {
    if e.parent.Some? {
      CloneIsSameIff(e.parent.value);
    }
    if e.children.Some? {
      CloneIsSameIff(e.children.value);
    }
    if e.accountGroups.Some? {
      CloneGroupsSameIff(e.accountGroups.value);
    }
    CloneEntitySameIff(e.groups);
    CloneEntitySameIff(e.proxy);
    CloneEntitySameIff(e.usageLogs);
  }

  lemma CloneEntitySameIff(q: Option<EntityQ>)
    ensures CloneMaybeEntity(q) == q <==> Unlocked(q)
  {
    if q.Some? {
      UnmodifiedIff(q.value.sel);
    }
  }

  lemma {:induction false} CloneGroupsSameIff(q: AccountGroupQ)
    ensures CloneGroups(q) == q <==> NoModifiersBelow(q)
    decreases q, 1
  {
    if q.account.Some? {
      CloneIsSameIff(q.account.value);
    }
    CloneEntitySameIff(q.group);
    UnmodifiedIff(q.sel);
  }

  // ForUpdate on any query, then Clone: the clone lacks the lock.
  method LockThenClone(query: AccountQuery, lock: string) returns (c: AccountQuery)
    requires query.Valid()
    modifies query`modifiers
    ensures query.Valid() && c.Valid()
    ensures query.Value().sel.modifiers == old(query.modifiers) + [lock] && c.Value().sel.modifiers == []
    ensures c.Value() != query.Value()
  {
    hide AccountQuery.Valid, AccountQuery.Separate, AccountQuery.Edges, CloneEdges;
    query.ForUpdate(lock);
    CloneIsSameIff(query.Value());
    label Locked:
    c := query.Clone();
    Kept@Locked(query);
  }

  // Running clones leaves the original as it is, so that it gives the same graph as
  // often as it is asked, groups edge or not.
  method AllOfClone(st: Store, query: AccountQuery) returns (r: Outcome, nodes: seq<Account>, ghost S: set<object>)
    requires ValidStore(st) && query.Valid() && PlainEdges(query.Edges())
    ensures query.Valid() && query.Value() == old(query.Value())
    ensures r.Ok? <==> RunError(st, query.Sel(), query.Edges()).None?
    ensures r.Ok? ==>
              AccountsDenote(S, nodes,
                  NaiveTrees(st, query.ctx.Fields, query.Edges(), Select(st.accounts.rows, query.Sel())))
  {
    hide AccountQuery.Valid, AccountQuery.Separate, AccountQuery.Edges, ValidStore, PlainEdges, RunError, NaiveTrees;
    hide AccountsDenote, Select;
    hide CloneEdges;
    ghost var q := query.Value();
    var copy := query.Clone();
    Kept(query);
    ClonePlain(q.edges);
    Unpaged(st, q);
    OutsideSubs(copy);
    label Copied:
    r, nodes, S := All(st, copy);
    Kept@Copied(query);
  }

  lemma Unpaged(st: Store, q: AccountQ)
    requires ValidStore(st) && PlainEdges(q.edges) && PlainEdges(CloneEdges(q.edges))
    ensures var rows := Select(st.accounts.rows, q.sel);
            && Select(st.accounts.rows, q.sel.(modifiers := [])) == rows
            && RunError(st, q.sel.(modifiers := []), CloneEdges(q.edges)) == RunError(st, q.sel, q.edges)
            && NaiveTrees(st, q.sel.fields, CloneEdges(q.edges), rows) == NaiveTrees(st, q.sel.fields, q.edges, rows)
  {
    var rows := Select(st.accounts.rows, q.sel);
    CloneLoadsAlike(st, q.sel.fields, q.edges, rows);
    SelectUnique(st.accounts.rows, q.sel);
    BatchIsNaive(st, q.sel.fields, q.edges, rows);
    BatchIsNaive(st, q.sel.fields, CloneEdges(q.edges), rows);
  }

  lemma {:induction false} ClonePlain(e: EdgesQ)
    requires PlainEdges(e)
    ensures PlainEdges(CloneEdges(e))
    decreases e, 0
  {
    if e.parent.Some? {
      ClonePlainAccounts(e.parent.value);
    }
    if e.children.Some? {
      ClonePlainAccounts(e.children.value);
    }
    if e.accountGroups.Some? {
      ClonePlainGroups(e.accountGroups.value);
    }
  }

  lemma {:induction false} ClonePlainAccounts(q: AccountQ)
    requires PlainAccounts(q)
    ensures PlainAccounts(CloneAccounts(q))
    decreases q, 1
  {
    ClonePlain(q.edges);
  }

  lemma {:induction false} ClonePlainGroups(q: AccountGroupQ)
    requires PlainGroups(q)
    ensures PlainGroups(CloneGroups(q))
    decreases q, 1
  {
    if q.account.Some? {
      ClonePlainAccounts(q.account.value);
    }
  }
}
