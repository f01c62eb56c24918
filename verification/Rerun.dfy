// Running the same query object again. Every run leaves its filters in the stored
// subqueries; a repeated filter changes nothing, but a repeated join does.
module Rerun {
  import opened Lists
  import opened Rows
  import opened EagerSpec
  import opened Entities
  import opened GroupJoins
  import opened NaiveJoin
  import opened EagerLoading

  // A tree of many-to-one and one-to-many edges.
  predicate NoGroups(e: EdgesQ)
    decreases e
  {
    && e.groups.None?
    && (e.parent.Some? ==> NoGroups(e.parent.value.edges))
    && (e.children.Some? ==> NoGroups(e.children.value.edges))
    && (e.accountGroups.Some? ==> NoGroupsBelow(e.accountGroups.value))
  }

  predicate NoGroupsBelow(q: AccountGroupQ)
    decreases q
  {
    q.account.Some? ==> NoGroups(q.account.value.edges)
  }

  // The groups of a tree, if it asks for any, have their id in front.
  predicate IdsFirst(st: Store, e: EdgesQ) {
    LeadsWithId(st.groups.columns) || NoGroups(e)
  }

  predicate IdsFirstBelow(st: Store, q: AccountGroupQ) {
    LeadsWithId(st.groups.columns) || NoGroupsBelow(q)
  }

  // In the next run, no groups query of the tree would join a single row.
  predicate Quiet(st: Store, e: EdgesQ, rows: seq<Row>)
    decreases e, 1
  {
    rows == [] || (
      && QuietGroups(st, e.groups, rows) && QuietAccounts(st, e.parent, Keys(rows, ParentAccountId))
      && QuietChildren(st, e.children, rows) && QuietJoins(st, e.accountGroups, rows))
  }

  predicate QuietGroups(st: Store, q: Option<EntityQ>, rows: seq<Row>) {
    q.Some? ==> JoinResult(st, AfterGroups(q, rows).value, Ints(rows, Id)) == []
  }

  predicate QuietAccounts(st: Store, q: Option<AccountQ>, keys: seq<Option<int>>)
    decreases q
  {
    q.None? || Distinct(keys) == []
    || Quiet(st, q.value.edges, Select(st.accounts.rows, ParentSelection(q.value.sel, keys)))
  }

  predicate QuietChildren(st: Store, q: Option<AccountQ>, rows: seq<Row>)
    decreases q
  {
    q.None? || Quiet(st, q.value.edges, Select(st.accounts.rows, ChildSelection(q.value.sel, Ints(rows, Id))))
  }

  predicate QuietJoins(st: Store, q: Option<AccountGroupQ>, rows: seq<Row>)
    decreases q
  {
    q.None? ||
    var batch := Select(st.accountGroups.rows, JoinSelection(q.value.sel, Ints(rows, Id)));
    batch == [] || QuietAccounts(st, q.value.account, Somes(Ints(batch, AccountId)))
  }

  // ---- leaves ---------------------------------------------------------------------------

  lemma PageEmpty<T>(limit: Option<nat>, offset: Option<nat>, rows: seq<T>)
    ensures Page(limit, offset, rows) == [] <==> |rows| <= if offset.Some? then offset.value else 0
  {
  }

  // Joining the same accounts once more returns no fewer rows.
  lemma JoinsGrow(joinRows: seq<Row>, gs: seq<Row>, joins: seq<seq<int>>, ids: seq<int>)
    ensures var once := JoinedBy(joinRows, gs, joins + [ids]);
            var twice := JoinedBy(joinRows, gs, joins + [ids] + [ids]);
            |twice| >= |once| && (once == [] ==> twice == [])
  {
    hide Joining, JoinedBy, LinksOf, Extends;
    var before, once := JoinedBy(joinRows, gs, joins), JoinedBy(joinRows, gs, joins + [ids]);
    JoinedByMore(joinRows, gs, joins, ids);
    JoinedByMore(joinRows, gs, joins + [ids], ids);
    JoiningExtends(joinRows, before, ids);
    forall row | row in once
      ensures LinksOf(joinRows, row.1, ids) != []
    {
      ReachedBy(joinRows, before, ids, row);
    }
    JoinedTwice(joinRows, once, ids);
  }

  lemma ResultAgain(st: Store, q: EntityQ, ids: seq<int>)
    ensures JoinResult(st, q.(joins := q.joins + [ids]), ids) == [] ==> JoinResult(st, q, ids) == []
    ensures q.sel.FromStart() && JoinResult(st, q, ids) == [] ==>
              JoinResult(st, q.(joins := q.joins + [ids]), ids) == []
  {
    hide Page, JoinedBy, Sift;
    var joinRows, gs := st.accountGroups.rows, Sift(st.groups.rows, q.sel);
    JoinsGrow(joinRows, gs, q.joins, ids);
    PageEmpty(q.sel.limit, q.sel.offset, JoinedBy(joinRows, gs, q.joins + [ids]));
    PageEmpty(q.sel.limit, q.sel.offset, JoinedBy(joinRows, gs, q.joins + [ids] + [ids]));
  }

  // Without an offset, the next join returns a row exactly if this one does.
  lemma QuietFromStart(st: Store, q: EntityQ, rows: seq<Row>)
    requires q.sel.FromStart()
    ensures QuietGroups(st, Some(q), rows) <==> JoinResult(st, q, Ints(rows, Id)) == []
  {
    hide JoinResult, Selection.FromStart;
    ResultAgain(st, q, Ints(rows, Id));
  }

  lemma ReachedBy(joinRows: seq<Row>, rows: seq<JoinedRow>, ids: seq<int>, row: JoinedRow)
    requires Extends(joinRows, rows, ids, row)
    ensures LinksOf(joinRows, row.1, ids) != []
  {
  }

  lemma GroupsAgain(st: Store, q: Option<EntityQ>, rows: seq<Row>)
    requires (q.Some? ==> LeadsWithId(st.groups.columns)) && GroupsError(st, q, rows).None?
    ensures GroupsError(st, AfterGroups(q, rows), rows) == if QuietGroups(st, q, rows) then None else Some(Panics)
    ensures QuietGroups(st, q, rows) ==> GroupsEdge(st, AfterGroups(q, rows), rows) == GroupsEdge(st, q, rows)
  {
    hide JoinResult, JoinPanics, FieldError, GatherAll, DecodeAll, EntityColumns, Ints;
    if q.Some? {
      var ids := Ints(rows, Id);
      var again := q.value.(joins := q.value.joins + [ids]);
      ResultAgain(st, q.value, ids);
      JoinPanicsIff(st, again, ids);
    }
  }

  lemma EntityAgain(t: Table, q: Option<EntityQ>, keys: seq<Option<int>>)
    ensures EntityError(t, AfterEntities(q, keys), keys) == EntityError(t, q, keys)
    ensures EntityEdge(t, AfterEntities(q, keys), keys) == EntityEdge(t, q, keys)
  {
    hide Select, InValues, Distinct, LinkAll, DecodeAll, EntityColumns, FieldError, Ints;
    if q.Some? && Distinct(keys) != [] {
      WhereAgain(t.rows, q.value.sel, InValues(Id, Distinct(keys)));
    }
  }

  lemma FieldAgain(sel: Selection, f: Column, p: Predicate)
    ensures sel.WithField(f).Where(p).WithField(f) == sel.WithField(f).Where(p)
  {
  }

  // The column and the filter of a loader, set again, select the same rows.
  lemma BatchAgain(rows: seq<Row>, sel: Selection, f: Column, p: Predicate)
    ensures sel.WithField(f).Where(p).WithField(f).fields == sel.WithField(f).Where(p).fields
    ensures Select(rows, sel.WithField(f).Where(p).WithField(f).Where(p)) == Select(rows, sel.WithField(f).Where(p))
  {
    hide Select, Selection.WithField, Selection.Where;
    FieldAgain(sel, f, p);
    WhereAgain(rows, sel.WithField(f), p);
  }

  lemma LogsAgain(st: Store, q: Option<EntityQ>, rows: seq<Row>)
    ensures LogsError(st, AfterLogs(q, rows)) == LogsError(st, q)
    ensures LogsEdge(st, AfterLogs(q, rows), rows) == LogsEdge(st, q, rows)
  {
    if q.Some? {
      BatchAgain(st.usageLogs.rows, q.value.sel, AccountId, InValues(AccountId, Ints(rows, Id)));
    }
  }

  // ---- the whole tree --------------------------------------------------------------------

  // What the first run says about the second, for the edges of one batch.
  ghost predicate Repeats(st: Store, fields: seq<Column>, e: EdgesQ, rows: seq<Row>) {
    && EdgesError(st, AfterEdges(st, e, rows), rows) == (if Quiet(st, e, rows) then None else Some(Panics))
    && (Quiet(st, e, rows) ==> Loaded(st, fields, AfterEdges(st, e, rows), rows) == Loaded(st, fields, e, rows))
  }

  // Trees that request the same edges and load them alike load the same nodes.
  lemma SameNodes(st: Store, fields: seq<Column>, e: EdgesQ, e': EdgesQ, rows: seq<Row>)
    requires e'.LoadedTypes() == e.LoadedTypes() && e'.proxy.Some? == e.proxy.Some? && e'.parent.Some? == e.parent.Some?
    requires GroupsEdge(st, e'.groups, rows) == GroupsEdge(st, e.groups, rows)
    requires EntityEdge(st.proxies, e'.proxy, Keys(rows, ProxyId))
            == EntityEdge(st.proxies, e.proxy, Keys(rows, ProxyId))
    requires AccountEdge(st, e'.parent, Keys(rows, ParentAccountId))
            == AccountEdge(st, e.parent, Keys(rows, ParentAccountId))
    requires ChildrenEdge(st, e'.children, rows) == ChildrenEdge(st, e.children, rows)
    requires LogsEdge(st, e'.usageLogs, rows) == LogsEdge(st, e.usageLogs, rows)
    requires JoinsEdge(st, e'.accountGroups, rows) == JoinsEdge(st, e.accountGroups, rows)
    ensures Loaded(st, fields, e', rows) == Loaded(st, fields, e, rows)
  {
    hide GroupsEdge, EntityEdge, AccountEdge, ChildrenEdge, LogsEdge, JoinsEdge, EdgesQ.LoadedTypes;
    hide AccountColumns, Decode, Keys;
    forall i | 0 <= i < |rows|
      ensures Loaded(st, fields, e', rows)[i] == Loaded(st, fields, e, rows)[i]
    {
      assert LoadedNode(st, fields, e', rows, i) == LoadedNode(st, fields, e, rows, i);
    }
  }

  lemma SameJoinNodes(st: Store, fields: seq<Column>, q: AccountGroupQ, q': AccountGroupQ, batch: seq<Row>)
    requires q'.account.Some? == q.account.Some? && q'.group.Some? == q.group.Some?
    requires AccountEdge(st, q'.account, Somes(Ints(batch, AccountId)))
          == AccountEdge(st, q.account, Somes(Ints(batch, AccountId)))
    requires EntityEdge(st.groups, q'.group, Somes(Ints(batch, GroupId)))
          == EntityEdge(st.groups, q.group, Somes(Ints(batch, GroupId)))
    ensures LoadedGroups(st, fields, q', batch) == LoadedGroups(st, fields, q, batch)
  {
    hide AccountEdge, EntityEdge, AccountGroupColumns, Decode, Somes, Ints;
    forall i | 0 <= i < |batch|
      ensures LoadedGroups(st, fields, q', batch)[i] == LoadedGroups(st, fields, q, batch)[i]
    {
      assert LoadedGroup(st, fields, q', batch, i) == LoadedGroup(st, fields, q, batch, i);
    }
  }

  lemma AfterJoinKinds(st: Store, sel: Selection, q: AccountGroupQ, batch: seq<Row>)
    ensures var q' := AfterJoinEdges(st, sel, q, batch);
            q'.sel == sel && q'.account.Some? == q.account.Some? && q'.group.Some? == q.group.Some?
  {
  }

  lemma AfterKinds(st: Store, e: EdgesQ, rows: seq<Row>)
    ensures AfterEdgesOf(st, e, rows).LoadedTypes() == e.LoadedTypes()
    ensures AfterEdgesOf(st, e, rows).proxy.Some? == e.proxy.Some?
    ensures AfterEdgesOf(st, e, rows).parent.Some? == e.parent.Some?
  {
  }

  // The second run panics as soon as one of the four edges that may join groups does.
  lemma SecondError(st: Store, e: EdgesQ, e': EdgesQ, rows: seq<Row>, g: bool, p: bool, c: bool, j: bool)
    requires EdgesErrorOf(st, e, rows).None?
    requires GroupsError(st, e'.groups, rows) == if g then None else Some(Panics)
    requires EntityError(st.proxies, e'.proxy, Keys(rows, ProxyId))
            == EntityError(st.proxies, e.proxy, Keys(rows, ProxyId))
    requires AccountError(st, e'.parent, Keys(rows, ParentAccountId)) == if p then None else Some(Panics)
    requires ChildrenError(st, e'.children, rows) == if c then None else Some(Panics)
    requires LogsError(st, e'.usageLogs) == LogsError(st, e.usageLogs)
    requires JoinsError(st, e'.accountGroups, rows) == if j then None else Some(Panics)
    ensures EdgesErrorOf(st, e', rows) == if g && p && c && j then None else Some(Panics)
  {
    hide GroupsError, EntityError, AccountError, ChildrenError, LogsError, JoinsError;
  }

  lemma {:induction false} EdgesAgain(st: Store, fields: seq<Column>, e: EdgesQ, rows: seq<Row>)
    requires IdsFirst(st, e) && EdgesError(st, e, rows).None?
    ensures Repeats(st, fields, e, rows)
    decreases e, 1
  {
    hide GroupsEdge, EntityEdge, AccountEdge, ChildrenEdge, LogsEdge, JoinsEdge, Loaded, EdgesQ.LoadedTypes;
    hide GroupsError, EntityError, AccountError, ChildrenError, LogsError, JoinsError;
    hide AfterGroups, AfterEntities, AfterAccounts, AfterChildren, AfterLogs, AfterJoins;
    hide QuietGroups, QuietAccounts, QuietChildren, QuietJoins;
    if rows != [] {
      AfterKinds(st, e, rows);
      var e' := AfterEdgesOf(st, e, rows);
      GroupsAgain(st, e.groups, rows);
      EntityAgain(st.proxies, e.proxy, Keys(rows, ProxyId));
      AccountsAgain(st, e.parent, Keys(rows, ParentAccountId));
      ChildrenAgain(st, e.children, rows);
      LogsAgain(st, e.usageLogs, rows);
      JoinsAgain(st, e.accountGroups, rows);
      SecondError(st, e, e', rows, QuietGroups(st, e.groups, rows),
          QuietAccounts(st, e.parent, Keys(rows, ParentAccountId)),
          QuietChildren(st, e.children, rows), QuietJoins(st, e.accountGroups, rows));
      if Quiet(st, e, rows) {
        SameNodes(st, fields, e, e', rows);
      }
    }
  }

  lemma {:induction false} AccountsAgain(st: Store, q: Option<AccountQ>, keys: seq<Option<int>>)
    requires (q.Some? ==> IdsFirst(st, q.value.edges)) && AccountError(st, q, keys).None?
    ensures AccountError(st, AfterAccounts(st, q, keys), keys)
           == if QuietAccounts(st, q, keys) then None else Some(Panics)
    ensures QuietAccounts(st, q, keys) ==> AccountEdge(st, AfterAccounts(st, q, keys), keys) == AccountEdge(st, q, keys)
    decreases q
  {
    hide Select, InValues, Distinct, Loaded, LinkAll, EdgesError, AfterEdges, FieldError, Quiet;
    hide Ints;
    if q.Some? && Distinct(keys) != [] {
      var sel, e := ParentSelection(q.value.sel, keys), q.value.edges;
      var rows := Select(st.accounts.rows, sel);
      WhereAgain(st.accounts.rows, q.value.sel, InValues(Id, Distinct(keys)));
      assert Select(st.accounts.rows, ParentSelection(sel, keys)) == rows;
      EdgesAgain(st, sel.fields, e, rows);
      assert AfterAccounts(st, q, keys) == Some(AccountQ(sel, AfterEdges(st, e, rows)));
    }
  }

  lemma {:induction false} ChildrenAgain(st: Store, q: Option<AccountQ>, rows: seq<Row>)
    requires (q.Some? ==> IdsFirst(st, q.value.edges)) && ChildrenError(st, q, rows).None?
    ensures ChildrenError(st, AfterChildren(st, q, rows), rows)
           == if QuietChildren(st, q, rows) then None else Some(Panics)
    ensures QuietChildren(st, q, rows) ==>
              ChildrenEdge(st, AfterChildren(st, q, rows), rows) == ChildrenEdge(st, q, rows)
    decreases q
  {
    hide Select, InValues, Loaded, FanAll, EdgesError, AfterEdges, FieldError, Quiet, Ints;
    hide Selection.WithField;
    if q.Some? {
      var ids, e := Ints(rows, Id), q.value.edges;
      var sel := ChildSelection(q.value.sel, ids);
      var batch := Select(st.accounts.rows, sel);
      BatchAgain(st.accounts.rows, q.value.sel, ParentAccountId, InValues(ParentAccountId, ids));
      EdgesAgain(st, sel.fields, e, batch);
      assert AfterChildren(st, q, rows) == Some(AccountQ(sel, AfterEdges(st, e, batch)));
    }
  }

  lemma {:induction false} JoinsAgain(st: Store, q: Option<AccountGroupQ>, rows: seq<Row>)
    requires (q.Some? ==> IdsFirstBelow(st, q.value)) && JoinsError(st, q, rows).None?
    ensures JoinsError(st, AfterJoins(st, q, rows), rows) == if QuietJoins(st, q, rows) then None else Some(Panics)
    ensures QuietJoins(st, q, rows) ==> JoinsEdge(st, AfterJoins(st, q, rows), rows) == JoinsEdge(st, q, rows)
    decreases q
  {
    hide Select, InValues, LoadedGroups, FanAll, JoinEdgesError, AfterJoinEdges, FieldError, QuietAccounts, Ints;
    hide Selection.WithField, Somes;
    if q.Some? {
      var ids := Ints(rows, Id);
      var sel := JoinSelection(q.value.sel, ids);
      var batch := Select(st.accountGroups.rows, sel);
      BatchAgain(st.accountGroups.rows, q.value.sel, AccountId, InValues(AccountId, ids));
      JoinRowsAgain(st, sel, q.value, batch);
    }
  }

  lemma {:induction false} JoinRowsAgain(st: Store, sel: Selection, q: AccountGroupQ, batch: seq<Row>)
    requires IdsFirstBelow(st, q) && JoinEdgesError(st, q, batch).None?
    ensures AfterJoinEdges(st, sel, q, batch).sel == sel
    ensures var quiet := batch == [] || QuietAccounts(st, q.account, Somes(Ints(batch, AccountId)));
            && JoinEdgesError(st, AfterJoinEdges(st, sel, q, batch), batch) == (if quiet then None else Some(Panics))
            && (quiet ==>
                  LoadedGroups(st, sel.fields, AfterJoinEdges(st, sel, q, batch), batch)
                  == LoadedGroups(st, sel.fields, q, batch))
    decreases q, 0
  {
    hide AccountEdge, EntityEdge, AccountError, EntityError, AfterAccounts, AfterEntities, QuietAccounts, Ints;
    hide LoadedGroups;
    AfterJoinKinds(st, sel, q, batch);
    if batch != [] {
      AccountsAgain(st, q.account, Somes(Ints(batch, AccountId)));
      EntityAgain(st.groups, q.group, Somes(Ints(batch, GroupId)));
      if QuietAccounts(st, q.account, Somes(Ints(batch, AccountId))) {
        SameJoinNodes(st, sel.fields, q, AfterJoinEdges(st, sel, q, batch), batch);
      }
    } else {
      assert LoadedGroups(st, sel.fields, AfterJoinEdges(st, sel, q, batch), batch) == [];
    }
  }

  // After a run of any tree, the next run over the unchanged store panics exactly if
  // the join of some groups query then returns a row, and else gives the same graph.
  lemma SecondRun(st: Store, q: AccountQ)
    requires IdsFirst(st, q.edges) && RunError(st, q.sel, q.edges).None?
    ensures var again := AfterRun(st, q.sel, q.edges);
            var quiet := Quiet(st, q.edges, Select(st.accounts.rows, q.sel));
            && RunError(st, again.sel, again.edges) == (if quiet then None else Some(Panics))
            && (quiet ==> AccountTrees(st, again) == AccountTrees(st, q))
  {
    hide Select, Loaded, EdgesError, AfterEdges, FieldError, Quiet;
    EdgesAgain(st, q.sel.fields, q.edges, Select(st.accounts.rows, q.sel));
  }

  // ---- trees of many-to-one and one-to-many edges ------------------------------------------

  // Such a tree is quiet over every store, and a run leaves it such a tree.
  lemma {:induction false} NoGroupsQuiet(st: Store, e: EdgesQ, rows: seq<Row>)
    requires NoGroups(e)
    ensures Quiet(st, e, rows) && NoGroups(AfterEdges(st, e, rows))
    decreases e, 1
  {
    NoGroupsAccounts(st, e.parent, Keys(rows, ParentAccountId));
    NoGroupsChildren(st, e.children, rows);
    NoGroupsJoins(st, e.accountGroups, rows);
    assert NoGroups(AfterEdgesOf(st, e, rows));
  }

  lemma {:induction false} NoGroupsChildren(st: Store, q: Option<AccountQ>, rows: seq<Row>)
    requires q.Some? ==> NoGroups(q.value.edges)
    ensures QuietChildren(st, q, rows)
    ensures AfterChildren(st, q, rows).Some? ==> NoGroups(AfterChildren(st, q, rows).value.edges)
    decreases q
  {
    if q.Some? {
      var sel := ChildSelection(q.value.sel, Ints(rows, Id));
      NoGroupsQuiet(st, q.value.edges, Select(st.accounts.rows, sel));
      assert AfterRun(st, sel, q.value.edges).edges == AfterEdges(st, q.value.edges, Select(st.accounts.rows, sel));
    }
  }

  lemma {:induction false} NoGroupsJoins(st: Store, q: Option<AccountGroupQ>, rows: seq<Row>)
    requires q.Some? ==> NoGroupsBelow(q.value)
    ensures QuietJoins(st, q, rows)
    ensures AfterJoins(st, q, rows).Some? ==> NoGroupsBelow(AfterJoins(st, q, rows).value)
    decreases q
  {
    if q.Some? {
      var sel := JoinSelection(q.value.sel, Ints(rows, Id));
      var batch := Select(st.accountGroups.rows, sel);
      NoGroupsAccounts(st, q.value.account, Somes(Ints(batch, AccountId)));
      assert AfterJoins(st, q, rows) == Some(AfterJoinEdges(st, sel, q.value, batch));
    }
  }

  lemma {:induction false} NoGroupsAccounts(st: Store, q: Option<AccountQ>, keys: seq<Option<int>>)
    requires q.Some? ==> NoGroups(q.value.edges)
    ensures QuietAccounts(st, q, keys)
    ensures AfterAccounts(st, q, keys).Some? ==> NoGroups(AfterAccounts(st, q, keys).value.edges)
    decreases q
  {
    if q.Some? {
      var sel := ParentSelection(q.value.sel, keys);
      NoGroupsQuiet(st, q.value.edges, Select(st.accounts.rows, sel));
      assert AfterRun(st, sel, q.value.edges).edges == AfterEdges(st, q.value.edges, Select(st.accounts.rows, sel));
    }
  }

  // The query after n runs.
  function AfterRuns(st: Store, q: AccountQ, n: nat): AccountQ {
    if n == 0 then q else var p := AfterRuns(st, q, n - 1); AfterRun(st, p.sel, p.edges)
  }

  lemma NextRunIsTheSame(st: Store, p: AccountQ)
    requires NoGroups(p.edges) && RunError(st, p.sel, p.edges).None?
    ensures var again := AfterRun(st, p.sel, p.edges);
            && again.sel == p.sel && NoGroups(again.edges) && RunError(st, again.sel, again.edges).None?
            && AccountTrees(st, again) == AccountTrees(st, p)
  {
    hide Select, AccountTrees, RunError, NoGroups, Quiet, AfterEdges;
    NoGroupsQuiet(st, p.edges, Select(st.accounts.rows, p.sel));
    SecondRun(st, p);
  }

  // However often it has run before, a tree without groups edges that succeeds once
  // succeeds again and returns the graph of its first run.
  lemma {:induction false} EveryRunIsTheFirst(st: Store, q: AccountQ, n: nat)
    requires NoGroups(q.edges) && RunError(st, q.sel, q.edges).None?
    ensures var p := AfterRuns(st, q, n);
            && p.sel == q.sel && NoGroups(p.edges) && RunError(st, p.sel, p.edges).None?
            && AccountTrees(st, p) == AccountTrees(st, q)
  {
    hide AfterRun, AccountTrees, RunError, NoGroups;
    if n > 0 {
      EveryRunIsTheFirst(st, q, n - 1);
      NextRunIsTheSame(st, AfterRuns(st, q, n - 1));
    }
  }

  // ---- what a run leaves behind -------------------------------------------------------------

  // A query that accepts what q accepts, as long as it has one of the keys in column c.
  ghost predicate ConfinedTo(after: Selection, q: Selection, c: Column, keys: seq<Option<int>>) {
    && after.order == q.order && after.limit == q.limit && after.offset == q.offset && after.modifiers == q.modifiers
    && forall r: Row :: Satisfies(r, after.predicates)
                        <==> Satisfies(r, q.predicates) && c in r && r[c].IntCell? && Some(r[c].i) in keys
  }

  lemma WhereConfines(sel: Selection, c: Column, ids: seq<int>, keys: seq<Option<int>>)
    requires forall k :: k in ids <==> Some(k) in keys
    ensures ConfinedTo(sel.Where(InValues(c, ids)), sel, c, keys)
  {
    forall r: Row
      ensures Satisfies(r, sel.Where(InValues(c, ids)).predicates)
         <==> Satisfies(r, sel.predicates) && c in r && r[c].IntCell? && Some(r[c].i) in keys
    {
      SatisfiesSnoc(r, sel.predicates, InValues(c, ids));
    }
  }

  lemma SomesMembers(ids: seq<int>)
    ensures forall k :: k in ids <==> Some(k) in Somes(ids)
  {
    forall k
      ensures k in ids <==> Some(k) in Somes(ids)
    {
      if k in ids {
        var i :| 0 <= i < |ids| && ids[i] == k;
        assert Somes(ids)[i] == Some(k);
      }
    }
  }

  // After a run, every subquery that was issued is confined to the keys of this run: a
  // later run loads nothing for an id that is new.
  lemma RunConfines(st: Store, e: EdgesQ, rows: seq<Row>)
    requires rows != []
    ensures var after, ids := AfterEdges(st, e, rows), Ints(rows, Id);
            && (e.groups.Some? ==> after.groups == Some(e.groups.value.(joins := e.groups.value.joins + [ids])))
            && (e.proxy.Some? && (exists k :: Some(k) in Keys(rows, ProxyId)) ==>
                  after.proxy.Some? && ConfinedTo(after.proxy.value.sel, e.proxy.value.sel, Id, Keys(rows, ProxyId)))
            && (e.parent.Some? && (exists k :: Some(k) in Keys(rows, ParentAccountId)) ==>
                  after.parent.Some?
                  && ConfinedTo(after.parent.value.sel, e.parent.value.sel, Id, Keys(rows, ParentAccountId)))
            && (e.children.Some? ==>
                  after.children.Some?
                  && ConfinedTo(after.children.value.sel, e.children.value.sel, ParentAccountId, Somes(ids)))
            && (e.usageLogs.Some? ==>
                  after.usageLogs.Some?
                  && ConfinedTo(after.usageLogs.value.sel, e.usageLogs.value.sel, AccountId, Somes(ids)))
            && (e.accountGroups.Some? ==>
                  after.accountGroups.Some?
                  && ConfinedTo(after.accountGroups.value.sel, e.accountGroups.value.sel, AccountId, Somes(ids)))
  {
    hide ConfinedTo, AfterEdgesOf, Keys, Ints, Somes;
    assert AfterEdges(st, e, rows) == AfterEdgesOf(st, e, rows);
    ManyToOneConfined(st, e, rows);
    OneToManyConfined(st, e, rows);
  }

  lemma ManyToOneConfined(st: Store, e: EdgesQ, rows: seq<Row>)
    ensures var after := AfterEdgesOf(st, e, rows);
            && (e.groups.Some? ==>
                  after.groups == Some(e.groups.value.(joins := e.groups.value.joins + [Ints(rows, Id)])))
            && (e.proxy.Some? && (exists k :: Some(k) in Keys(rows, ProxyId)) ==>
                  after.proxy.Some? && ConfinedTo(after.proxy.value.sel, e.proxy.value.sel, Id, Keys(rows, ProxyId)))
            && (e.parent.Some? && (exists k :: Some(k) in Keys(rows, ParentAccountId)) ==>
                  after.parent.Some?
                  && ConfinedTo(after.parent.value.sel, e.parent.value.sel, Id, Keys(rows, ParentAccountId)))
  {
    hide ConfinedTo, Distinct, Select, AfterEdges, AfterRun, AfterChildren, AfterLogs, AfterJoins, Keys, Ints;
    var proxies, parents := Keys(rows, ProxyId), Keys(rows, ParentAccountId);
    DistinctMembers(proxies);
    DistinctMembers(parents);
    if e.proxy.Some? {
      WhereConfines(e.proxy.value.sel, Id, Distinct(proxies), proxies);
    }
    if e.parent.Some? {
      WhereConfines(e.parent.value.sel, Id, Distinct(parents), parents);
      AfterRunSelects(st, ParentSelection(e.parent.value.sel, parents), e.parent.value.edges);
      if Distinct(parents) != [] {
        assert AfterAccounts(st, e.parent, parents)
            == Some(AfterRun(st, ParentSelection(e.parent.value.sel, parents), e.parent.value.edges));
      }
    }
  }

  lemma AfterRunSelects(st: Store, sel: Selection, e: EdgesQ)
    ensures AfterRun(st, sel, e).sel == sel
  {
  }

  lemma OneToManyConfined(st: Store, e: EdgesQ, rows: seq<Row>)
    ensures var after, ids := AfterEdgesOf(st, e, rows), Somes(Ints(rows, Id));
            && (e.children.Some? ==>
                  after.children.Some?
                  && ConfinedTo(after.children.value.sel, e.children.value.sel, ParentAccountId, ids))
            && (e.usageLogs.Some? ==>
                  after.usageLogs.Some?
                  && ConfinedTo(after.usageLogs.value.sel, e.usageLogs.value.sel, AccountId, ids))
            && (e.accountGroups.Some? ==>
                  after.accountGroups.Some?
                  && ConfinedTo(after.accountGroups.value.sel, e.accountGroups.value.sel, AccountId, ids))
  {
    hide Distinct, Select, AfterEdges, AfterRun, AfterGroups, AfterEntities, AfterAccounts, Somes, Ints, InValues;
    hide Satisfies, AfterJoinEdges;
    var ids := Ints(rows, Id);
    SomesMembers(ids);
    if e.children.Some? {
      var q := e.children.value;
      WhereConfines(q.sel.WithField(ParentAccountId), ParentAccountId, ids, Somes(ids));
      AfterRunSelects(st, ChildSelection(q.sel, ids), q.edges);
      assert AfterChildren(st, e.children, rows) == Some(AfterRun(st, ChildSelection(q.sel, ids), q.edges));
    }
    if e.usageLogs.Some? {
      WhereConfines(e.usageLogs.value.sel.WithField(AccountId), AccountId, ids, Somes(ids));
    }
    if e.accountGroups.Some? {
      var q := e.accountGroups.value;
      WhereConfines(q.sel.WithField(AccountId), AccountId, ids, Somes(ids));
      AfterJoinKinds(st, JoinSelection(q.sel, ids), q, Select(st.accountGroups.rows, JoinSelection(q.sel, ids)));
      assert AfterJoins(st, e.accountGroups, rows) == Some(AfterRunGroups(st, JoinSelection(q.sel, ids), q));
    }
  }

  // The rows of a confined query for one id: those of the query itself, or none if the id
  // is new.
  lemma ConfinedRows(rows: seq<Row>, sel: Selection, c: Column, ids: seq<int>, id: int)
    requires sel.Unpaged()
    ensures Select(rows, sel.Where(InValues(c, ids)).Where(Equals(c, id)))
         == if id in ids then Select(rows, sel.Where(Equals(c, id))) else []
  {
    var s := Sift(rows, sel);
    SiftWhere(rows, sel, InValues(c, ids));
    SiftWhere(rows, sel.Where(InValues(c, ids)), Equals(c, id));
    SiftWhere(rows, sel, Equals(c, id));
    if id in ids {
      FilterFilter(Equals(c, id), InValues(c, ids), Equals(c, id), s);
    } else {
      FilterMembers(InValues(c, ids), s);
      FilterNone(Equals(c, id), Filter(InValues(c, ids), s));
    }
  }

  // Over a changed store, a query that has run loads the usage logs that a fresh one would
  // exactly if the accounts that are new to it have none.
  lemma StaleLogsIff(st: Store, q: EntityQ, rows: seq<Row>, rows': seq<Row>)
    requires q.sel.Unpaged() && UniqueIds(rows')
    ensures LogsEdge(st, AfterLogs(Some(q), rows), rows') == LogsEdge(st, Some(q), rows')
       <==> forall i :: 0 <= i < |rows'| && IntOf(rows'[i], Id) !in Ints(rows, Id) ==>
              NaiveLogs(st, Some(q), IntOf(rows'[i], Id)) == []
  {
    hide LogsEdge, NaiveLogs, Ints, UniqueIds, AfterLogs;
    StaysUnpaged(q, rows);
    forall i | 0 <= i < |rows'|
      ensures LogsEdge(st, Some(q), rows')[i] == NaiveLogs(st, Some(q), IntOf(rows'[i], Id))
      ensures LogsEdge(st, AfterLogs(Some(q), rows), rows')[i]
           == if IntOf(rows'[i], Id) in Ints(rows, Id) then NaiveLogs(st, Some(q), IntOf(rows'[i], Id)) else []
    {
      LogsNaive(st, Some(q), rows', i);
      LogsNaive(st, AfterLogs(Some(q), rows), rows', i);
      StaleLogs(st, q, rows, IntOf(rows'[i], Id));
    }
  }

  lemma StaysUnpaged(q: EntityQ, rows: seq<Row>)
    requires q.sel.Unpaged()
    ensures AfterLogs(Some(q), rows).Some? && AfterLogs(Some(q), rows).value.sel.Unpaged()
  {
  }

  lemma StaleLogs(st: Store, q: EntityQ, rows: seq<Row>, id: int)
    requires q.sel.Unpaged()
    ensures NaiveLogs(st, AfterLogs(Some(q), rows), id)
         == if id in Ints(rows, Id) then NaiveLogs(st, Some(q), id) else []
  {
    hide Select, EntityColumns, Decode, Ints;
    var sel, ids := q.sel.WithField(AccountId), Ints(rows, Id);
    FieldAgain(q.sel, AccountId, InValues(AccountId, ids));
    ConfinedRows(st.usageLogs.rows, sel, AccountId, ids, id);
  }

  // ---- the groups edge does break it -------------------------------------------------------

  function OneRow(): Row {
    map[Id := IntCell(1)]
  }

  function OneLink(): Row {
    map[AccountId := IntCell(1), GroupId := IntCell(1)]
  }

  // One account in one group.
  function OneGroupStore(): Store {
    Store(Table([Id, ProxyId, ParentAccountId], [OneRow()]), Table([Id], [OneRow()]), Table([Id], []),
          Table([Id, AccountId], []), Table([AccountId, GroupId], [OneLink()]))
  }

  function PlainSelection(): Selection {
    Selection([], [], [], None, None, [])
  }

  lemma OneTyped()
    ensures WellTyped(OneGroupStore())
  {
    hide Known;
    KeyColumnsKnown();
    assert forall r :: r in [OneRow()] ==> r == OneRow();
  }

  lemma OneGroupValid()
    ensures ValidStore(OneGroupStore())
  {
    hide WellTyped;
    OneTyped();
    assert forall r :: r in [OneRow()] ==> r == OneRow();
    assert multiset([OneRow()]) == multiset{OneRow()};
  }

  lemma OneSorted<T>(order: seq<T -> int>, x: T)
    ensures Sort(order, [x]) == [x]
  {
    assert [x][..0] == [] && Insert(order, [], x) == [] + [x];
  }

  lemma OneSelected(row: Row)
    ensures Sift([row], PlainSelection()) == [row] && Select([row], PlainSelection()) == [row]
  {
    hide Sort, Filter;
    FilterAll(Matching([]), [row]);
    OneSorted<Row>([], row);
  }

  lemma OneLinked(joinRow: Row, g: Row, a: int)
    requires Joins(joinRow, g) && KeyOf(joinRow, AccountId) == Some(a)
    ensures JoinRows([joinRow], [g], [a]) == [(a, g)]
  {
    assert [joinRow][..0] == [] && [g][..0] == [];
    assert LinksOf([joinRow], g, [a]) == [a];
  }

  lemma OneJoined()
    ensures JoinResult(OneGroupStore(), EntityQ(PlainSelection(), []), [1]) != []
  {
    hide JoinRows, JoinResult, Sift;
    var st, q := OneGroupStore(), EntityQ(PlainSelection(), []);
    OneSelected(OneRow());
    OneLinked(OneLink(), OneRow(), 1);
    FreshResult(st, q, [1]);
    assert GroupJoin(st, q.sel, [1]) == [(1, OneRow())];
    assert JoinResult(st, q, [1]) == [] ==> Pairs(JoinResult(st, q, [1])) == [];
  }

  function OnlyGroups(q: EntityQ): EdgesQ {
    EdgesQ(Some(q), None, None, None, None, None)
  }

  lemma GroupsAlone(st: Store, q: EntityQ, rows: seq<Row>)
    requires rows != []
    ensures EdgesError(st, OnlyGroups(q), rows) == GroupsErrorFor(st, q, Ints(rows, Id))
    ensures Quiet(st, OnlyGroups(q), rows) <==> QuietGroups(st, Some(q), rows)
  {
    hide GroupsErrorFor, JoinResult, FieldError, QuietGroups;
    var e := OnlyGroups(q);
    assert EdgesErrorOf(st, e, rows) == GroupsError(st, e.groups, rows);
  }

  // A fresh groups query under a plain query that joins a row panics the second time.
  lemma PanicsAgain(st: Store, q: EntityQ)
    requires LeadsWithId(st.groups.columns) && q == EntityQ(PlainSelection(), [])
    requires Select(st.accounts.rows, PlainSelection()) != []
    requires JoinResult(st, q, Ints(Select(st.accounts.rows, PlainSelection()), Id)) != []
    ensures RunError(st, PlainSelection(), OnlyGroups(q)).None?
    ensures var again := AfterRun(st, PlainSelection(), OnlyGroups(q));
            RunError(st, again.sel, again.edges) == Some(Panics)
  {
    hide Select, JoinResult, AfterRun, EdgesError, Quiet, QuietGroups, JoinPanics;
    var rows := Select(st.accounts.rows, PlainSelection());
    JoinPanicsIff(st, q, Ints(rows, Id));
    GroupsAlone(st, q, rows);
    QuietFromStart(st, q, rows);
    SecondRun(st, AccountQ(PlainSelection(), OnlyGroups(q)));
  }

  lemma OneAccount()
    ensures OneGroupStore().accounts.rows == [OneRow()] && Ints([OneRow()], Id) == [1]
    ensures LeadsWithId(OneGroupStore().groups.columns)
  {
  }

  lemma OnlyGroupsPlain()
    ensures PlainEdges(OnlyGroups(EntityQ(PlainSelection(), [])))
  {
  }

  // WithGroups works once and panics the second time.
  lemma SecondRunCanPanic() returns (st: Store, q: AccountQ)
    ensures ValidStore(st) && PlainEdges(q.edges) && q.sel == PlainSelection()
    ensures q.edges.groups == Some(EntityQ(PlainSelection(), []))
    ensures RunError(st, q.sel, q.edges).None?
    ensures var again := AfterRun(st, q.sel, q.edges); RunError(st, again.sel, again.edges) == Some(Panics)
  {
    hide Select, JoinResult, ValidStore, AfterRun, RunError, OneGroupStore, OneRow, PlainEdges;
    st := OneGroupStore();
    q := AccountQ(PlainSelection(), OnlyGroups(EntityQ(PlainSelection(), [])));
    OneGroupValid();
    OneSelected(OneRow());
    OneJoined();
    OneAccount();
    OnlyGroupsPlain();
    PanicsAgain(st, EntityQ(PlainSelection(), []));
  }
}
