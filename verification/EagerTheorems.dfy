// What a caller of AccountQuery.All may rely on: the naive join of every selected
// row, no foreign-key error, and edges whose accessors tell the three states apart.
module EagerTheorems {
  import opened Lists
  import opened Rows
  import opened Entities
  import opened EagerSpec
  import opened GroupJoins
  import opened Queries
  import opened NaiveJoin
  import opened Denotation
  import opened Loaders
  import opened EagerLoading
  import opened NodeFields
  import opened Selections

  // AccountQuery.All over a store with primary keys, for a tree that has not been
  // run before and pages nothing below its root.
  method All(st: Store, query: AccountQuery) returns (r: Outcome, nodes: seq<Account>, ghost S: set<object>)
    requires ValidStore(st) && query.Valid() && PlainEdges(query.Edges())
    modifies query.Subs
    ensures fresh(S)
    ensures r.Ok? <==> old(RunError(st, query.Sel(), query.Edges())).None?
    ensures r.Ok? <==> AllKnown(old(IssuedBy(st, query.Sel(), query.Edges())))
    ensures r.Err? ==> r.error.Returns? && r.error.error.InvalidField?
    ensures r.Err? ==> NamesFirst(r.error, old(IssuedBy(st, query.Sel(), query.Edges())))
    ensures r.Ok? ==>
              var rows := Select(st.accounts.rows, query.Sel());
              AccountsDenote(S, nodes, NaiveTrees(st, query.ctx.Fields, old(query.Edges()), rows))
    ensures r.Ok? ==> NodesCopy(nodes, Select(st.accounts.rows, query.Sel()), st.accounts.columns, query.ctx.Fields,
                                KeysOf(old(query.Edges()).proxy.Some?, old(query.Edges()).parent.Some?))
    ensures r.Ok? && |query.order| == 1 ==> RanksRise(query.order[0], Select(st.accounts.rows, query.Sel()))
  {
    hide RunError, AccountQuery.Valid, AccountQuery.Separate, AccountQuery.Edges, NaiveTrees, AccountsDenote, Select;
    hide PlainEdges, FreshJoins, Loaded, AfterEdges, IssuedBy, AllKnown, NodesCopy, RanksRise, NamesFirst;
    RunIsNaive(st, query.Value());
    PlainIsFresh(query.Edges());
    IssuedIff(st, query.Sel(), query.Edges());
    NoForeignKeyError(st, query.Sel(), query.Edges());
    OutsideSubs(query);
    ghost var sel, e := query.Sel(), query.Edges();
    r, nodes, S := AccountsAll(st, query);
    if r.Ok? {
      AccountsCopy(st, sel.fields, e, Select(st.accounts.rows, sel), S, nodes);
    }
    OneOrder(st.accounts.rows, sel);
  }

  // ---- the fields and the order of the nodes -----------------------------------------

  // Node i has the chosen fields of row i.
  ghost predicate NodesCopy(
    nodes: seq<Account>, rows: seq<Row>, all: seq<Column>, fields: seq<Column>, keys: set<Column>)
    reads nodes`fields
  {
    |nodes| == |rows| && forall i :: 0 <= i < |nodes| ==> Copies(nodes[i].fields, rows[i], all, fields, keys)
  }

  lemma AccountsCopy(st: Store, fields: seq<Column>, e: EdgesQ, rows: seq<Row>, S: set<object>, nodes: seq<Account>)
    requires AccountsDenote(S, nodes, Loaded(st, fields, e, rows))
    ensures NodesCopy(nodes, rows, st.accounts.columns, fields, KeysOf(e.proxy.Some?, e.parent.Some?))
  {
    hide Copies, AccountColumns, Decode, KeysOf;
    forall i | 0 <= i < |nodes|
      ensures Copies(nodes[i].fields, rows[i], st.accounts.columns, fields, KeysOf(e.proxy.Some?, e.parent.Some?))
    {
      assert AccountDenotes(S, nodes[i], LoadedNode(st, fields, e, rows, i));
      AccountFields(st, fields, e.proxy.Some?, e.parent.Some?, rows[i]);
    }
  }

  // The same for join rows, and for the groups, proxies and usage logs of any query.
  lemma JoinRowsCopy(
    st: Store, fields: seq<Column>, q: AccountGroupQ, rows: seq<Row>, S: set<object>, nodes: seq<AccountGroup>)
    requires JoinsDenote(S, nodes, LoadedGroups(st, fields, q, rows))
    ensures |nodes| == |rows|
    ensures forall i :: 0 <= i < |nodes| ==>
              CopiesKeys(nodes[i].fields, rows[i], st.accountGroups.columns, fields,
                         JoinKeysOf(q.account.Some?, q.group.Some?))
  {
    hide CopiesKeys, AccountGroupColumns, Decode, JoinKeysOf;
    forall i | 0 <= i < |nodes|
      ensures CopiesKeys(nodes[i].fields, rows[i], st.accountGroups.columns, fields,
                         JoinKeysOf(q.account.Some?, q.group.Some?))
    {
      assert JoinDenotes(S, nodes[i], LoadedGroup(st, fields, q, rows, i));
      JoinFields(st, fields, q.account.Some?, q.group.Some?, rows[i]);
    }
  }

  lemma EntitiesCopy(t: Table, sel: Selection, nodes: seq<Entity>)
    requires EntitiesDenote(nodes, EntityRows(t, sel))
    ensures var rows := Select(t.rows, sel);
            |nodes| == |rows|
            && forall i :: 0 <= i < |nodes| ==> Copies(nodes[i].fields, rows[i], t.columns, sel.fields, {})
  {
    hide Copies, EntityColumns, Decode, Select;
    var rows := Select(t.rows, sel);
    forall i | 0 <= i < |nodes|
      ensures Copies(nodes[i].fields, rows[i], t.columns, sel.fields, {})
    {
      EntityFields(t.columns, sel.fields, rows[i]);
    }
  }

  ghost predicate RanksRise(rank: OrderOption, rows: seq<Row>) {
    forall i, j :: 0 <= i <= j < |rows| ==> rank(rows[i]) <= rank(rows[j])
  }

  // With one order option, the ranks of the returned rows never fall.
  lemma OneOrder(rows: seq<Row>, sel: Selection)
    ensures |sel.order| == 1 ==> RanksRise(sel.order[0], Select(rows, sel))
  {
    hide Select;
    if |sel.order| == 1 {
      forall i: nat, j: nat | i <= j < |Select(rows, sel)|
        ensures sel.order[0](Select(rows, sel)[i]) <= sel.order[0](Select(rows, sel)[j])
      {
        SelectInOrder(rows, sel, i, j, 0);
      }
    }
  }

  // AccountQuery.All for any tree, paged or not and run before or not: no loader ends in
  // one of its foreign-key errors.
  method AnyRun(st: Store, query: AccountQuery) returns (r: Outcome, nodes: seq<Account>, ghost S: set<object>)
    requires WellTyped(st) && query.Valid()
    modifies query.Subs
    ensures r.Err? ==> Foreseen(Some(r.error), FreshJoins(old(query.Edges())))
    ensures r.Ok? ==> query.Valid() && query.Edges() == AfterEdges(st, old(query.Edges()),
                Select(st.accounts.rows, query.Sel()))
    ensures r.Ok? ==> NodesCopy(nodes, Select(st.accounts.rows, query.Sel()), st.accounts.columns, query.ctx.Fields,
                                KeysOf(old(query.Edges()).proxy.Some?, old(query.Edges()).parent.Some?))
  {
    hide RunError, AccountQuery.Valid, AccountQuery.Separate, AccountQuery.Edges, AccountsDenote, Select, FreshJoins;
    hide Loaded, AfterEdges, NodesCopy;
    NoForeignKeyError(st, query.Sel(), query.Edges());
    OutsideSubs(query);
    ghost var sel, e := query.Sel(), query.Edges();
    r, nodes, S := AccountsAll(st, query);
    if r.Ok? {
      AccountsCopy(st, sel.fields, e, Select(st.accounts.rows, sel), S, nodes);
    }
  }

  // ---- which queries a run issues -----------------------------------------------------

  // The fields that a query selects, and the columns of its table.
  datatype Issued = Issued(fields: seq<Column>, columns: seq<Column>)

  predicate AllKnown(qs: seq<Issued>) {
    forall q :: q in qs ==> forall c :: c in q.fields ==> c in q.columns
  }

  // The queries of a run that no error ends: those below an edge are issued only for
  // nodes, and those of a many-to-one edge only for keys.
  function IssuedBy(st: Store, sel: Selection, e: EdgesQ): seq<Issued>
    decreases e, 2
  {
    [Issued(sel.fields, st.accounts.columns)] + IssuedBelow(st, e, Select(st.accounts.rows, sel))
  }

  function IssuedBelow(st: Store, e: EdgesQ, rows: seq<Row>): seq<Issued>
    decreases e, 1
  {
    if rows == [] then []
    else
      IssuedAll(st.groups, e.groups) + IssuedFor(st.proxies, e.proxy, Keys(rows, ProxyId))
      + IssuedAccounts(st, e.parent, Keys(rows, ParentAccountId)) + IssuedChildren(st, e.children, rows)
      + IssuedLogs(st, e.usageLogs) + IssuedJoins(st, e.accountGroups, rows)
  }

  function IssuedAll(t: Table, q: Option<EntityQ>): seq<Issued> {
    if q.None? then [] else [Issued(q.value.sel.fields, t.columns)]
  }

  function IssuedFor(t: Table, q: Option<EntityQ>, keys: seq<Option<int>>): seq<Issued> {
    if q.None? || Distinct(keys) == [] then [] else [Issued(q.value.sel.fields, t.columns)]
  }

  function IssuedLogs(st: Store, q: Option<EntityQ>): seq<Issued> {
    if q.None? then [] else [Issued(q.value.sel.WithField(AccountId).fields, st.usageLogs.columns)]
  }

  function IssuedAccounts(st: Store, q: Option<AccountQ>, keys: seq<Option<int>>): seq<Issued>
    decreases q
  {
    if q.None? || Distinct(keys) == [] then []
    else IssuedBy(st, q.value.sel.Where(InValues(Id, Distinct(keys))), q.value.edges)
  }

  function IssuedChildren(st: Store, q: Option<AccountQ>, rows: seq<Row>): seq<Issued>
    decreases q
  {
    if q.None? then [] else IssuedBy(st, ChildSelection(q.value.sel, Ints(rows, Id)), q.value.edges)
  }

  function IssuedJoins(st: Store, q: Option<AccountGroupQ>, rows: seq<Row>): seq<Issued>
    decreases q
  {
    if q.None? then []
    else
      var sel := JoinSelection(q.value.sel, Ints(rows, Id));
      var batch := Select(st.accountGroups.rows, sel);
      [Issued(sel.fields, st.accountGroups.columns)]
      + if batch == [] then []
        else
          IssuedAccounts(st, q.value.account, Somes(Ints(batch, AccountId)))
          + IssuedFor(st.groups, q.value.group, Somes(Ints(batch, GroupId)))
  }

  // The error of the first unknown field of the first query that has one.
  function FirstUnknown(qs: seq<Issued>): Option<Stop> {
    if qs == [] then None
    else OrElse(FirstUnknown(qs[..|qs| - 1]), FieldError(qs[|qs| - 1].fields, qs[|qs| - 1].columns))
  }

  // Field i of query k is no column of its table, and no field before it is unknown.
  ghost predicate UnknownAt(qs: seq<Issued>, k: nat, i: nat) {
    && k < |qs| && i < |qs[k].fields| && qs[k].fields[i] !in qs[k].columns
    && (forall h :: 0 <= h < i ==> qs[k].fields[h] in qs[k].columns)
    && forall h :: 0 <= h < k ==> forall c :: c in qs[h].fields ==> c in qs[h].columns
  }

  lemma {:induction false} FirstField(fields: seq<Column>, columns: seq<Column>) returns (i: nat)
    requires FieldError(fields, columns).Some?
    ensures i < |fields| && FieldError(fields, columns) == Some(Returns(InvalidField(fields[i])))
    ensures fields[i] !in columns && forall h :: 0 <= h < i ==> fields[h] in columns
  {
    var n := |fields| - 1;
    if FieldError(fields[..n], columns).Some? {
      i := FirstField(fields[..n], columns);
    } else {
      FieldErrors(fields[..n], columns);
      assert forall h :: 0 <= h < n ==> fields[h] in fields[..n];
      i := n;
    }
  }

  lemma {:induction false} FirstUnknownExactly(qs: seq<Issued>)
    ensures FirstUnknown(qs).None? <==> AllKnown(qs)
    ensures FirstUnknown(qs).Some? ==>
              exists k: nat, i: nat ::
                UnknownAt(qs, k, i) && FirstUnknown(qs) == Some(Returns(InvalidField(qs[k].fields[i])))
  {
    if qs != [] {
      var t, q := qs[..|qs| - 1], qs[|qs| - 1];
      FirstUnknownExactly(t);
      FieldErrors(q.fields, q.columns);
      assert qs == t + [q];
      if FirstUnknown(t).Some? {
        var k: nat, i: nat :| UnknownAt(t, k, i) && FirstUnknown(t) == Some(Returns(InvalidField(t[k].fields[i])));
        assert UnknownAt(qs, k, i) && qs[k] == t[k];
      } else if FieldError(q.fields, q.columns).Some? {
        var i := FirstField(q.fields, q.columns);
        assert forall h :: 0 <= h < |t| ==> qs[h] in t;
        assert UnknownAt(qs, |t|, i);
      }
    }
  }

  lemma {:induction false} KnownConcat(a: seq<Issued>, b: seq<Issued>)
    ensures FirstUnknown(a + b) == OrElse(FirstUnknown(a), FirstUnknown(b))
  {
    hide FieldError;
    if b == [] {
      assert a + b == a;
    } else {
      assert (a + b)[..|a + b| - 1] == a + b[..|b| - 1];
      KnownConcat(a, b[..|b| - 1]);
    }
  }

  lemma KnownOne(fields: seq<Column>, columns: seq<Column>)
    ensures FirstUnknown([Issued(fields, columns)]) == FieldError(fields, columns)
  {
    hide FieldError;
    assert [Issued(fields, columns)][..0] == [];
  }

  lemma KnownLeaf(st: Store, e: EdgesQ, rows: seq<Row>)
    requires LeadsWithId(st.groups.columns) && (e.groups.Some? ==> e.groups.value.joins == [])
    ensures FirstUnknown(IssuedAll(st.groups, e.groups)) == GroupsError(st, e.groups, rows)
    ensures FirstUnknown(IssuedLogs(st, e.usageLogs)) == LogsError(st, e.usageLogs)
  {
    hide FieldError, FirstUnknown, JoinPanics, JoinResult, Selection.WithField;
    NothingIssued();
    if e.groups.Some? {
      KnownOne(e.groups.value.sel.fields, st.groups.columns);
      JoinPanicsIff(st, e.groups.value, Ints(rows, Id));
    }
    if e.usageLogs.Some? {
      KnownOne(e.usageLogs.value.sel.WithField(AccountId).fields, st.usageLogs.columns);
    }
  }

  lemma NothingIssued()
    ensures FirstUnknown([]) == None
  {
  }

  lemma KnownFor(t: Table, q: Option<EntityQ>, keys: seq<Option<int>>)
    ensures FirstUnknown(IssuedFor(t, q, keys)) == EntityError(t, q, keys)
  {
    hide FieldError, FirstUnknown, Distinct;
    NothingIssued();
    if q.Some? {
      KnownOne(q.value.sel.fields, t.columns);
    }
  }

  // The error of a fresh tree is that of the first unknown field among the queries that it
  // issues, in the order of the loaders.
  lemma {:induction false} IssuedFirst(st: Store, sel: Selection, e: EdgesQ)
    requires LeadsWithId(st.groups.columns) && FreshJoins(e)
    ensures RunError(st, sel, e) == FirstUnknown(IssuedBy(st, sel, e))
    decreases e, 2
  {
    hide FieldError, Select, FirstUnknown, EdgesError, IssuedBelow, FreshJoins;
    var rows := Select(st.accounts.rows, sel);
    KnownOne(sel.fields, st.accounts.columns);
    KnownConcat([Issued(sel.fields, st.accounts.columns)], IssuedBelow(st, e, rows));
    IssuedBelowFirst(st, e, rows);
  }

  lemma {:induction false} IssuedBelowFirst(st: Store, e: EdgesQ, rows: seq<Row>)
    requires LeadsWithId(st.groups.columns) && FreshJoins(e)
    ensures EdgesError(st, e, rows) == FirstUnknown(IssuedBelow(st, e, rows))
    decreases e, 1
  {
    hide FirstUnknown, GroupsError, EntityError, AccountError, ChildrenError, LogsError, JoinsError, FreshJoinsBelow;
    hide IssuedAll, IssuedFor, IssuedAccounts, IssuedChildren, IssuedLogs, IssuedJoins, Keys;
    NothingIssued();
    KnownLeaf(st, e, rows);
    KnownFor(st.proxies, e.proxy, Keys(rows, ProxyId));
    IssuedAccountsFirst(st, e.parent, Keys(rows, ParentAccountId));
    IssuedChildrenFirst(st, e.children, rows);
    IssuedJoinsFirst(st, e.accountGroups, rows);
    KnownSix(IssuedAll(st.groups, e.groups), IssuedFor(st.proxies, e.proxy, Keys(rows, ProxyId)),
             IssuedAccounts(st, e.parent, Keys(rows, ParentAccountId)), IssuedChildren(st, e.children, rows),
             IssuedLogs(st, e.usageLogs), IssuedJoins(st, e.accountGroups, rows));
  }

  lemma KnownSix(a: seq<Issued>, b: seq<Issued>, c: seq<Issued>, d: seq<Issued>, e: seq<Issued>, f: seq<Issued>)
    ensures FirstUnknown(a + b + c + d + e + f)
         == OrElse(OrElse(FirstUnknown(a), OrElse(FirstUnknown(b), FirstUnknown(c))),
                   OrElse(FirstUnknown(d), OrElse(FirstUnknown(e), FirstUnknown(f))))
  {
    hide FirstUnknown;
    KnownConcat(a, b);
    KnownConcat(a + b, c);
    KnownConcat(a + b + c, d);
    KnownConcat(a + b + c + d, e);
    KnownConcat(a + b + c + d + e, f);
  }

  lemma {:induction false} IssuedAccountsFirst(st: Store, q: Option<AccountQ>, keys: seq<Option<int>>)
    requires LeadsWithId(st.groups.columns) && (q.Some? ==> FreshJoins(q.value.edges))
    ensures AccountError(st, q, keys) == FirstUnknown(IssuedAccounts(st, q, keys))
    decreases q
  {
    hide FirstUnknown, Distinct, FreshJoins, FieldError, EdgesError, IssuedBelow, Select;
    NothingIssued();
    if q.Some? {
      IssuedFirst(st, q.value.sel.Where(InValues(Id, Distinct(keys))), q.value.edges);
    }
  }

  lemma {:induction false} IssuedChildrenFirst(st: Store, q: Option<AccountQ>, rows: seq<Row>)
    requires LeadsWithId(st.groups.columns) && (q.Some? ==> FreshJoins(q.value.edges))
    ensures ChildrenError(st, q, rows) == FirstUnknown(IssuedChildren(st, q, rows))
    decreases q
  {
    hide FirstUnknown, FreshJoins, FieldError, EdgesError, IssuedBelow, Select, Selection.WithField, Ints;
    NothingIssued();
    if q.Some? {
      IssuedFirst(st, ChildSelection(q.value.sel, Ints(rows, Id)), q.value.edges);
    }
  }

  lemma {:induction false} IssuedJoinsFirst(st: Store, q: Option<AccountGroupQ>, rows: seq<Row>)
    requires LeadsWithId(st.groups.columns) && (q.Some? ==> FreshJoinsBelow(q.value))
    ensures JoinsError(st, q, rows) == FirstUnknown(IssuedJoins(st, q, rows))
    decreases q
  {
    hide FirstUnknown, FreshJoins, FieldError, Select, Selection.WithField, Ints, Somes, AccountError, EntityError;
    hide IssuedAccounts, IssuedFor;
    NothingIssued();
    if q.Some? {
      var sel := JoinSelection(q.value.sel, Ints(rows, Id));
      var batch := Select(st.accountGroups.rows, sel);
      var accounts := IssuedAccounts(st, q.value.account, Somes(Ints(batch, AccountId)));
      var groups := IssuedFor(st.groups, q.value.group, Somes(Ints(batch, GroupId)));
      KnownOne(sel.fields, st.accountGroups.columns);
      var rest := if batch == [] then [] else accounts + groups;
      KnownConcat([Issued(sel.fields, st.accountGroups.columns)], rest);
      assert IssuedJoins(st, q, rows) == [Issued(sel.fields, st.accountGroups.columns)] + rest;
      IssuedAccountsFirst(st, q.value.account, Somes(Ints(batch, AccountId)));
      KnownFor(st.groups, q.value.group, Somes(Ints(batch, GroupId)));
      KnownConcat(accounts, groups);
      assert JoinEdgesError(st, q.value, batch) == FirstUnknown(rest);
      assert JoinsError(st, q, rows) == RunGroupsError(st, sel, q.value);
    }
  }

  // So it runs without error exactly if every query that it issues selects columns of its
  // table, and else names the first field that is not one.
  lemma IssuedIff(st: Store, sel: Selection, e: EdgesQ)
    requires LeadsWithId(st.groups.columns) && FreshJoins(e)
    ensures RunError(st, sel, e).None? <==> AllKnown(IssuedBy(st, sel, e))
    ensures RunError(st, sel, e).Some? ==> NamesFirst(RunError(st, sel, e).value, IssuedBy(st, sel, e))
  {
    hide RunError, IssuedBy, FirstUnknown, AllKnown, UnknownAt;
    IssuedFirst(st, sel, e);
    FirstUnknownExactly(IssuedBy(st, sel, e));
  }

  ghost predicate NamesFirst(stop: Stop, qs: seq<Issued>) {
    exists k: nat, i: nat :: UnknownAt(qs, k, i) && stop == Returns(InvalidField(qs[k].fields[i]))
  }

  // ---- which errors a run can report --------------------------------------------------

  // No groups query of the tree carries the join predicate of an earlier run.
  predicate FreshJoins(e: EdgesQ)
    decreases e
  {
    && (e.groups.Some? ==> e.groups.value.joins == [])
    && (e.parent.Some? ==> FreshJoins(e.parent.value.edges))
    && (e.children.Some? ==> FreshJoins(e.children.value.edges))
    && (e.accountGroups.Some? ==> FreshJoinsBelow(e.accountGroups.value))
  }

  predicate FreshJoinsBelow(q: AccountGroupQ)
    decreases q
  {
    q.account.Some? ==> FreshJoins(q.account.value.edges)
  }

  lemma {:induction false} PlainIsFresh(e: EdgesQ)
    requires PlainEdges(e)
    ensures FreshJoins(e)
    decreases e
  {
    if e.parent.Some? {
      assert PlainAccounts(e.parent.value);
      PlainIsFresh(e.parent.value.edges);
    }
    if e.children.Some? {
      assert PlainAccounts(e.children.value);
      PlainIsFresh(e.children.value.edges);
    }
    if e.accountGroups.Some? && e.accountGroups.value.account.Some? {
      assert PlainGroups(e.accountGroups.value) && PlainAccounts(e.accountGroups.value.account.value);
      PlainIsFresh(e.accountGroups.value.account.value.edges);
    }
  }

  // A run fails only on an unknown field, and panics only on a join of an earlier run.
  predicate Foreseen(error: Option<Stop>, unrun: bool) {
    error.Some? ==> if error.value.Returns? then error.value.error.InvalidField? else !unrun
  }

  lemma {:induction false} FieldErrors(fields: seq<Column>, columns: seq<Column>)
    ensures Foreseen(FieldError(fields, columns), true)
    ensures FieldError(fields, columns).None? <==> forall c :: c in fields ==> c in columns
  {
    if fields != [] {
      FieldErrors(fields[..|fields| - 1], columns);
      assert fields == fields[..|fields| - 1] + [fields[|fields| - 1]];
    }
  }

  // Neither the "unexpected foreign-key" nor the "foreign-key is nil" branch is
  // ever the outcome of a run, whatever the tree and the rows of the store.
  lemma {:induction false} NoForeignKeyError(st: Store, sel: Selection, e: EdgesQ)
    requires LeadsWithId(st.groups.columns)
    ensures Foreseen(RunError(st, sel, e), FreshJoins(e))
    decreases e, 2
  {
    hide FieldError, Select, GroupsError, EntityError, LogsError, AccountError, JoinsError, AppendOnce, Distinct;
    var rows := Select(st.accounts.rows, sel);
    FieldErrors(sel.fields, st.accounts.columns);
    LeafErrors(st, e, rows);
    AccountErrors(st, e.parent, Keys(rows, ParentAccountId));
    if e.children.Some? {
      NoForeignKeyError(st, ChildSelection(e.children.value.sel, Ints(rows, Id)), e.children.value.edges);
      assert Foreseen(ChildrenError(st, e.children, rows), FreshJoins(e));
    }
    JoinErrors(st, e.accountGroups, rows);
    assert Foreseen(EdgesErrorOf(st, e, rows), FreshJoins(e));
  }

  lemma EntityErrors(t: Table, q: Option<EntityQ>, keys: seq<Option<int>>)
    ensures Foreseen(EntityError(t, q, keys), true)
  {
    if q.Some? {
      FieldErrors(q.value.sel.fields, t.columns);
    }
  }

  lemma LeafErrors(st: Store, e: EdgesQ, rows: seq<Row>)
    requires LeadsWithId(st.groups.columns)
    ensures Foreseen(GroupsError(st, e.groups, rows), FreshJoins(e))
    ensures Foreseen(EntityError(st.proxies, e.proxy, Keys(rows, ProxyId)), true)
    ensures Foreseen(LogsError(st, e.usageLogs), true)
  {
    hide FieldError, Select, JoinPanics, JoinResult, Selection.WithField, AppendOnce, Distinct, FreshJoinsBelow;
    if e.groups.Some? {
      FieldErrors(e.groups.value.sel.fields, st.groups.columns);
      JoinPanicsIff(st, e.groups.value, Ints(rows, Id));
    }
    EntityErrors(st.proxies, e.proxy, Keys(rows, ProxyId));
    if e.usageLogs.Some? {
      FieldErrors(e.usageLogs.value.sel.WithField(AccountId).fields, st.usageLogs.columns);
    }
  }

  lemma {:induction false} AccountErrors(st: Store, q: Option<AccountQ>, keys: seq<Option<int>>)
    requires LeadsWithId(st.groups.columns)
    ensures Foreseen(AccountError(st, q, keys), q.Some? ==> FreshJoins(q.value.edges))
    decreases q
  {
    if q.Some? {
      NoForeignKeyError(st, q.value.sel.Where(InValues(Id, Distinct(keys))), q.value.edges);
    }
  }

  lemma {:induction false} JoinErrors(st: Store, q: Option<AccountGroupQ>, rows: seq<Row>)
    requires LeadsWithId(st.groups.columns)
    ensures Foreseen(JoinsError(st, q, rows), q.Some? ==> FreshJoinsBelow(q.value))
    decreases q
  {
    hide FieldError, Select, AccountError, EntityError, Selection.WithField, FreshJoins;
    if q.Some? {
      var sel := JoinSelection(q.value.sel, Ints(rows, Id));
      var rows' := Select(st.accountGroups.rows, sel);
      FieldErrors(sel.fields, st.accountGroups.columns);
      AccountErrors(st, q.value.account, Somes(Ints(rows', AccountId)));
      EntityErrors(st.groups, q.value.group, Somes(Ints(rows', GroupId)));
      assert Foreseen(JoinEdgesError(st, q.value, rows'), FreshJoinsBelow(q.value));
      assert JoinsError(st, q, rows) == RunGroupsError(st, sel, q.value);
    }
  }
}
