// What every edge of a node holds, in terms of the cells of the rows: which rows, how
// often, in which order, and with which fields. The subqueries may have any predicates,
// order and fields, but no paging (backend/ent/account_query.go:627-844;
// backend/ent/accountgroup_query.go:379-436).
module EdgeContents {
  import opened Lists
  import opened Rows
  import opened EagerSpec
  import opened NaiveJoin
  import opened NodeFields
  import opened Selections

  ghost predicate RefersTo(row: Row, c: Column, id: int) {
    c in row && row[c] == IntCell(id)
  }

  ghost predicate Accepts(sel: Selection, r: Row) {
    forall k :: 0 <= k < |sel.predicates| ==> sel.predicates[k](r)
  }

  ghost predicate Unlimited(sel: Selection) {
    (sel.limit == None || sel.limit == Some(0)) && (sel.offset == None || sel.offset == Some(0))
  }

  // Of the rows of a table, those that the subquery accepts and that refer to the id, each
  // as often as in the table.
  ghost predicate AllThatRefer(found: seq<Row>, rows: seq<Row>, sel: Selection, c: Column, id: int) {
    forall r :: multiset(found)[r] == if RefersTo(r, c, id) && Accepts(sel, r) then multiset(rows)[r] else 0
  }

  // The rows rise in the order options, the first one first.
  ghost predicate InOrder(order: seq<OrderOption>, found: seq<Row>) {
    forall i, j, k :: 0 <= i <= j < |found| && 0 <= k < |order| && Tied(order[..k], found[i], found[j]) ==>
      order[k](found[i]) <= order[k](found[j])
  }

  ghost predicate Tied(order: seq<OrderOption>, r: Row, s: Row) {
    forall h :: 0 <= h < |order| ==> order[h](r) == order[h](s)
  }

  // ---- one query ------------------------------------------------------------------------

  lemma WhereCounts(rows: seq<Row>, sel: Selection, p: Predicate, r: Row)
    requires Unlimited(sel)
    ensures multiset(Select(rows, sel.Where(p)))[r] == if p(r) && Accepts(sel, r) then multiset(rows)[r] else 0
  {
    hide Select;
    SelectCounts(rows, sel.Where(p), r);
    SatisfiesSnoc(r, sel.predicates, p);
    assert Satisfies(r, sel.Where(p).predicates) <==> forall k :: 0 <= k < |sel.predicates + [p]| ==>
      (sel.predicates + [p])[k](r);
  }

  lemma EqualsExactly(c: Column, id: int, r: Row)
    ensures Equals(c, id)(r) <==> RefersTo(r, c, id)
  {
  }

  lemma SelectRises(rows: seq<Row>, sel: Selection)
    ensures InOrder(sel.order, Select(rows, sel))
  {
    hide Select;
    var found := Select(rows, sel);
    forall i: nat, j: nat, k: nat | i <= j < |found| && k < |sel.order| && Tied(sel.order[..k], found[i], found[j])
      ensures sel.order[k](found[i]) <= sel.order[k](found[j])
    {
      assert forall h :: 0 <= h < k ==> sel.order[..k][h] == sel.order[h];
      SelectInOrder(rows, sel, i, j, k);
    }
  }

  // The rows of a query for one id, with the column added to the selected fields.
  lemma ForOne(rows: seq<Row>, sel: Selection, c: Column, id: int)
    requires Unlimited(sel)
    ensures var found := Select(rows, sel.WithField(c).Where(Equals(c, id)));
            AllThatRefer(found, rows, sel, c, id) && InOrder(sel.order, found)
  {
    hide Select;
    var more := sel.WithField(c);
    assert more.predicates == sel.predicates && more.order == sel.order;
    forall r
      ensures multiset(Select(rows, more.Where(Equals(c, id))))[r]
           == if RefersTo(r, c, id) && Accepts(sel, r) then multiset(rows)[r] else 0
    {
      WhereCounts(rows, more, Equals(c, id), r);
      EqualsExactly(c, id, r);
    }
    SelectRises(rows, more.Where(Equals(c, id)));
  }

  lemma FieldAdded(all: seq<Column>, sel: Selection, f: Column, keys: set<Column>, c: Column)
    ensures Chosen(all, sel.WithField(f).fields, keys, c) <==> Chosen(all, sel.fields, keys + {f}, c)
    ensures ChosenKeys(all, sel.WithField(f).fields, keys, c) <==> ChosenKeys(all, sel.fields, keys + {f}, c)
  {
  }

  lemma CopiesAdded(node: Row, row: Row, all: seq<Column>, sel: Selection, f: Column, keys: set<Column>)
    ensures Copies(node, row, all, sel.WithField(f).fields, keys) <==> Copies(node, row, all, sel.fields, keys + {f})
    ensures CopiesKeys(node, row, all, sel.WithField(f).fields, keys)
       <==> CopiesKeys(node, row, all, sel.fields, keys + {f})
  {
    hide Chosen, ChosenKeys, Stored, Selection.WithField;
    forall c
      ensures Chosen(all, sel.WithField(f).fields, keys, c) <==> Chosen(all, sel.fields, keys + {f}, c)
      ensures ChosenKeys(all, sel.WithField(f).fields, keys, c) <==> ChosenKeys(all, sel.fields, keys + {f}, c)
    {
      FieldAdded(all, sel, f, keys, c);
    }
  }

  // ---- one-to-many ----------------------------------------------------------------------

  // The usage logs of the account with that id.
  lemma LogContents(st: Store, fields: seq<Column>, e: EdgesQ, row: Row, id: int) returns (found: seq<Row>)
    requires e.usageLogs.Some? && Unlimited(e.usageLogs.value.sel) && RefersTo(row, Id, id)
    ensures var sel, logs := e.usageLogs.value.sel, NaiveTree(st, fields, e, row).usageLogs;
            && AllThatRefer(found, st.usageLogs.rows, sel, AccountId, id) && InOrder(sel.order, found)
            && |logs| == |found|
            && forall j :: 0 <= j < |logs| ==> Copies(logs[j], found[j], st.usageLogs.columns, sel.fields, {AccountId})
  {
    hide AllThatRefer, InOrder, Select, Copies, EntityColumns, Decode, Selection.WithField;
    var sel := e.usageLogs.value.sel;
    var more := sel.WithField(AccountId);
    found := Select(st.usageLogs.rows, more.Where(Equals(AccountId, id)));
    ForOne(st.usageLogs.rows, sel, AccountId, id);
    forall j | 0 <= j < |found|
      ensures Copies(Decode(EntityColumns(st.usageLogs.columns, more.fields), found[j]), found[j],
                     st.usageLogs.columns, sel.fields, {AccountId})
    {
      EntityFields(st.usageLogs.columns, more.fields, found[j]);
      CopiesAdded(Decode(EntityColumns(st.usageLogs.columns, more.fields), found[j]), found[j],
                  st.usageLogs.columns, sel, AccountId, {});
      assert {} + {AccountId} == {AccountId};
    }
  }

  // Its children, each a node with the edges of its own row.
  lemma ChildContents(st: Store, fields: seq<Column>, e: EdgesQ, row: Row, id: int) returns (found: seq<Row>)
    requires e.children.Some? && Unlimited(e.children.value.sel) && RefersTo(row, Id, id)
    ensures var q, children := e.children.value, NaiveTree(st, fields, e, row).children;
            && AllThatRefer(found, st.accounts.rows, q.sel, ParentAccountId, id) && InOrder(q.sel.order, found)
            && |children| == |found|
            && forall j :: 0 <= j < |children| ==>
                 && children[j] == NaiveTree(st, q.sel.WithField(ParentAccountId).fields, q.edges, found[j])
                 && Copies(children[j].fields, found[j], st.accounts.columns, q.sel.fields,
                           KeysOf(q.edges.proxy.Some?, q.edges.parent.Some?) + {ParentAccountId})
  {
    hide AllThatRefer, InOrder, Select, Copies, AccountColumns, Decode, Selection.WithField, KeysOf;
    hide NaiveGroups, NaiveEntity, NaiveAccount, NaiveLogs, NaiveJoins, EdgesQ.LoadedTypes;
    var q := e.children.value;
    var more := q.sel.WithField(ParentAccountId);
    found := Select(st.accounts.rows, more.Where(Equals(ParentAccountId, id)));
    ForOne(st.accounts.rows, q.sel, ParentAccountId, id);
    forall j | 0 <= j < |found|
      ensures Copies(NaiveTree(st, more.fields, q.edges, found[j]).fields, found[j], st.accounts.columns,
                     q.sel.fields, KeysOf(q.edges.proxy.Some?, q.edges.parent.Some?) + {ParentAccountId})
    {
      TreeFields(st, more.fields, q.edges, found[j]);
      CopiesAdded(NaiveTree(st, more.fields, q.edges, found[j]).fields, found[j], st.accounts.columns, q.sel,
                  ParentAccountId, KeysOf(q.edges.proxy.Some?, q.edges.parent.Some?));
    }
    assert NaiveTree(st, fields, e, row).children == NaiveChildren(st, e.children, id);
  }

  lemma TreeFields(st: Store, fields: seq<Column>, e: EdgesQ, row: Row)
    ensures Copies(NaiveTree(st, fields, e, row).fields, row, st.accounts.columns, fields,
                   KeysOf(e.proxy.Some?, e.parent.Some?))
  {
    hide Copies, AccountColumns, Decode, KeysOf;
    hide NaiveGroups, NaiveEntity, NaiveAccount, NaiveChildren, NaiveLogs, NaiveJoins, EdgesQ.LoadedTypes;
    AccountFields(st, fields, e.proxy.Some?, e.parent.Some?, row);
  }

  // Its join rows.
  lemma JoinContents(st: Store, fields: seq<Column>, e: EdgesQ, row: Row, id: int) returns (found: seq<Row>)
    requires e.accountGroups.Some? && Unlimited(e.accountGroups.value.sel) && RefersTo(row, Id, id)
    ensures var q, joins := e.accountGroups.value, NaiveTree(st, fields, e, row).accountGroups;
            && AllThatRefer(found, st.accountGroups.rows, q.sel, AccountId, id) && InOrder(q.sel.order, found)
            && |joins| == |found|
            && forall j :: 0 <= j < |joins| ==>
                 && joins[j] == NaiveGroupTree(st, q.sel.WithField(AccountId).fields, q, found[j])
                 && CopiesKeys(joins[j].fields, found[j], st.accountGroups.columns, q.sel.fields,
                               JoinKeysOf(q.account.Some?, q.group.Some?) + {AccountId})
  {
    hide AllThatRefer, InOrder, Select, CopiesKeys, AccountGroupColumns, Decode, Selection.WithField, JoinKeysOf;
    hide NaiveGroups, NaiveEntity, NaiveAccount, NaiveChildren, NaiveLogs, EdgesQ.LoadedTypes;
    var q := e.accountGroups.value;
    var more := q.sel.WithField(AccountId);
    found := Select(st.accountGroups.rows, more.Where(Equals(AccountId, id)));
    ForOne(st.accountGroups.rows, q.sel, AccountId, id);
    forall j | 0 <= j < |found|
      ensures CopiesKeys(NaiveGroupTree(st, more.fields, q, found[j]).fields, found[j], st.accountGroups.columns,
                         q.sel.fields, JoinKeysOf(q.account.Some?, q.group.Some?) + {AccountId})
    {
      JoinFields(st, more.fields, q.account.Some?, q.group.Some?, found[j]);
      CopiesAdded(NaiveGroupTree(st, more.fields, q, found[j]).fields, found[j], st.accountGroups.columns, q.sel,
                  AccountId, JoinKeysOf(q.account.Some?, q.group.Some?));
    }
    assert NaiveTree(st, fields, e, row).accountGroups == NaiveJoins(st, e.accountGroups, id);
  }

  // ---- many-to-one ----------------------------------------------------------------------

  // Row r has the id that row names in column c, and the subquery accepts it.
  ghost predicate Names(row: Row, c: Column, r: Row, sel: Selection) {
    c in row && row[c].IntCell? && RefersTo(r, Id, row[c].i) && Accepts(sel, r)
  }

  lemma KeyExactly(row: Row, c: Column)
    ensures KeyOf(row, c) == if c in row && row[c].IntCell? then Some(row[c].i) else None
    ensures IntOf(row, c) == if c in row && row[c].IntCell? then row[c].i else 0
  {
  }

  // The result of a query for one id is empty exactly if no accepted row has it.
  lemma FoundExactly(rows: seq<Row>, sel: Selection, id: int)
    requires Unlimited(sel)
    ensures forall r ::
              r in Select(rows, sel.Where(Equals(Id, id))) <==> r in rows && RefersTo(r, Id, id) && Accepts(sel, r)
  {
    hide Select;
    var found := Select(rows, sel.Where(Equals(Id, id)));
    forall r
      ensures r in found <==> r in rows && RefersTo(r, Id, id) && Accepts(sel, r)
    {
      WhereCounts(rows, sel, Equals(Id, id), r);
      EqualsExactly(Id, id, r);
      assert r in found <==> multiset(found)[r] > 0;
      assert r in rows <==> multiset(rows)[r] > 0;
    }
  }

  // The entity of an edge: there is one exactly if the key names a row that the subquery
  // accepts, and then it has the chosen fields of such a row.
  lemma EntityContents(t: Table, q: EntityQ, row: Row, c: Column)
    requires Unlimited(q.sel)
    ensures var x := NaiveEntity(t, Some(q), KeyOf(row, c));
            && (x.Some? <==> exists r :: r in t.rows && Names(row, c, r, q.sel))
            && (x.Some? ==> exists r ::
                  r in t.rows && Names(row, c, r, q.sel) && Copies(x.value, r, t.columns, q.sel.fields, {}))
  {
    hide Select, Copies, EntityColumns, Decode;
    KeyExactly(row, c);
    if c in row && row[c].IntCell? {
      var found := Select(t.rows, q.sel.Where(Equals(Id, row[c].i)));
      FoundExactly(t.rows, q.sel, row[c].i);
      if found != [] {
        var r := found[|found| - 1];
        assert r in found && Names(row, c, r, q.sel);
        EntityFields(t.columns, q.sel.fields, r);
      } else {
        forall r | r in t.rows
          ensures !Names(row, c, r, q.sel)
        {
          assert r !in found;
        }
      }
    }
  }

  // The account of an edge, with its own edges.
  lemma AccountContents(st: Store, q: AccountQ, row: Row, c: Column)
    requires Unlimited(q.sel)
    ensures var x := NaiveAccount(st, Some(q), KeyOf(row, c));
            && (x.Some? <==> exists r :: r in st.accounts.rows && Names(row, c, r, q.sel))
            && (x.Some? ==> exists r ::
                  && r in st.accounts.rows && Names(row, c, r, q.sel)
                  && x.value == NaiveTree(st, q.sel.fields, q.edges, r)
                  && Copies(x.value.fields, r, st.accounts.columns, q.sel.fields,
                            KeysOf(q.edges.proxy.Some?, q.edges.parent.Some?)))
  {
    hide Select, Copies, NaiveTree, KeysOf;
    KeyExactly(row, c);
    if c in row && row[c].IntCell? {
      var found := Select(st.accounts.rows, q.sel.Where(Equals(Id, row[c].i)));
      FoundExactly(st.accounts.rows, q.sel, row[c].i);
      if found != [] {
        var r := found[|found| - 1];
        assert r in found && Names(row, c, r, q.sel);
        TreeFields(st, q.sel.fields, q.edges, r);
      } else {
        forall r | r in st.accounts.rows
          ensures !Names(row, c, r, q.sel)
        {
          assert r !in found;
        }
      }
    }
  }

  // Proxy and parent hang on the columns proxy_id and parent_account_id; account and group
  // of a join row on account_id and group_id.
  lemma KeyColumns(st: Store, fields: seq<Column>, e: EdgesQ, row: Row)
    ensures NaiveTree(st, fields, e, row).proxy == NaiveEntity(st.proxies, e.proxy, KeyOf(row, ProxyId))
    ensures NaiveTree(st, fields, e, row).parent == NaiveAccount(st, e.parent, KeyOf(row, ParentAccountId))
  {
    hide NaiveGroups, NaiveEntity, NaiveAccount, NaiveChildren, NaiveLogs, NaiveJoins, EdgesQ.LoadedTypes;
  }

  lemma JoinKeyColumns(st: Store, fields: seq<Column>, q: AccountGroupQ, row: Row)
    requires KeyOf(row, AccountId).Some? && KeyOf(row, GroupId).Some?
    ensures NaiveGroupTree(st, fields, q, row).account == NaiveAccount(st, q.account, KeyOf(row, AccountId))
    ensures NaiveGroupTree(st, fields, q, row).group == NaiveEntity(st.groups, q.group, KeyOf(row, GroupId))
  {
    hide NaiveEntity, NaiveAccount;
  }

  // ---- many-to-many ---------------------------------------------------------------------

  // Some join row names both the account and the group.
  ghost predicate Connects(joinRows: seq<Row>, id: int, g: Row) {
    exists l, k :: l in joinRows && RefersTo(l, AccountId, id) && RefersTo(l, GroupId, k) && RefersTo(g, Id, k)
  }

  lemma LinkedExactly(joinRows: seq<Row>, id: int, g: Row)
    ensures LinkedTo(joinRows, id)(g) <==> Connects(joinRows, id, g)
  {
    if LinkedTo(joinRows, id)(g) {
      var i :| 0 <= i < |joinRows| && Joins(joinRows[i], g) && Equals(AccountId, id)(joinRows[i]);
      var l := joinRows[i];
      assert l in joinRows && RefersTo(l, AccountId, id) && RefersTo(l, GroupId, l[GroupId].i)
             && RefersTo(g, Id, l[GroupId].i);
    }
    if Connects(joinRows, id, g) {
      var l, k :| l in joinRows && RefersTo(l, AccountId, id) && RefersTo(l, GroupId, k) && RefersTo(g, Id, k);
      var i :| 0 <= i < |joinRows| && joinRows[i] == l;
      assert Joins(joinRows[i], g) && Equals(AccountId, id)(joinRows[i]);
    }
  }

  // The groups of the account with that id: those that some join row connects to it and
  // the subquery accepts, each as often as in the table of groups.
  lemma GroupContents(st: Store, fields: seq<Column>, e: EdgesQ, row: Row, id: int) returns (found: seq<Row>)
    requires e.groups.Some? && Unlimited(e.groups.value.sel) && RefersTo(row, Id, id)
    ensures var sel, groups := e.groups.value.sel, NaiveTree(st, fields, e, row).groups;
            && (forall g :: multiset(found)[g]
                  == if Connects(st.accountGroups.rows, id, g) && Accepts(sel, g)
                     then multiset(st.groups.rows)[g] else 0)
            && InOrder(sel.order, found) && |groups| == |found|
            && forall j :: 0 <= j < |groups| ==> Copies(groups[j], found[j], st.groups.columns, sel.fields, {})
  {
    hide InOrder, Select, Copies, EntityColumns, Decode, LinkedTo, Connects;
    hide NaiveEntity, NaiveAccount, NaiveChildren, NaiveLogs, NaiveJoins, EdgesQ.LoadedTypes;
    var sel := e.groups.value.sel;
    var linked := LinkedTo(st.accountGroups.rows, id);
    found := Select(st.groups.rows, sel.Where(linked));
    forall g
      ensures multiset(found)[g]
           == if Connects(st.accountGroups.rows, id, g) && Accepts(sel, g) then multiset(st.groups.rows)[g] else 0
    {
      WhereCounts(st.groups.rows, sel, linked, g);
      LinkedExactly(st.accountGroups.rows, id, g);
    }
    SelectRises(st.groups.rows, sel.Where(linked));
    forall j | 0 <= j < |found|
      ensures Copies(Decode(EntityColumns(st.groups.columns, sel.fields), found[j]), found[j], st.groups.columns,
                     sel.fields, {})
    {
      EntityFields(st.groups.columns, sel.fields, found[j]);
    }
    assert NaiveTree(st, fields, e, row).groups == NaiveGroups(st, e.groups, id);
  }
}
