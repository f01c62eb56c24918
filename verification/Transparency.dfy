// Selecting fewer columns never changes which objects are loaded: querySpec puts
// the id first and adds the keys that the requested edges need.
module Transparency {
  import opened Lists
  import opened Rows
  import opened EagerSpec
  import opened Loaders
  import opened EagerLoading
  import opened Agreement

  // The loaded graph by identity: ids, and how they hang together.
  datatype Shape = Shape(
    id: int,
    groups: seq<int>,
    proxy: Option<int>,
    parent: Option<Shape>,
    children: seq<Shape>,
    usageLogs: seq<int>,
    accountGroups: seq<JoinShape>)

  datatype JoinShape = JoinShape(accountId: int, account: Option<Shape>, group: Option<int>)

  function IdOf(x: Option<Row>): Option<int> {
    if x.None? then None else Some(IntOf(x.value, Id))
  }

  function ShapeOf(t: AccountTree): Shape
    decreases t, 1
  {
    Shape(IntOf(t.fields, Id), Ints(t.groups, Id), IdOf(t.proxy), MaybeShape(t.parent),
          ShapesOf(t.children), Ints(t.usageLogs, Id), JoinShapesOf(t.accountGroups))
  }

  function MaybeShape(t: Option<AccountTree>): Option<Shape>
    decreases t, 2
  {
    if t.None? then None else Some(ShapeOf(t.value))
  }

  function ShapesOf(ts: seq<AccountTree>): (r: seq<Shape>)
    ensures |r| == |ts| && forall i :: 0 <= i < |ts| ==> r[i] == ShapeOf(ts[i])
    decreases ts, 0
  {
    seq(|ts|, i requires 0 <= i < |ts| => ShapeOf(ts[i]))
  }

  function JoinShapeOf(t: AccountGroupTree): JoinShape
    decreases t, 1
  {
    JoinShape(IntOf(t.fields, AccountId), MaybeShape(t.account), IdOf(t.group))
  }

  function JoinShapesOf(ts: seq<AccountGroupTree>): (r: seq<JoinShape>)
    ensures |r| == |ts| && forall i :: 0 <= i < |ts| ==> r[i] == JoinShapeOf(ts[i])
    decreases ts, 0
  {
    seq(|ts|, i requires 0 <= i < |ts| => JoinShapeOf(ts[i]))
  }

  // ---- the same tree with every column selected --------------------------------------

  function Wide(sel: Selection): Selection {
    sel.(fields := [])
  }

  function WideEntity(q: Option<EntityQ>): Option<EntityQ> {
    if q.None? then None else Some(q.value.(sel := Wide(q.value.sel)))
  }

  function WideAccounts(q: Option<AccountQ>): Option<AccountQ>
    decreases q
  {
    if q.None? then None else Some(AccountQ(Wide(q.value.sel), WideEdges(q.value.edges)))
  }

  function WideEdges(e: EdgesQ): EdgesQ
    decreases e
  {
    EdgesQ(WideEntity(e.groups), WideEntity(e.proxy), WideAccounts(e.parent), WideAccounts(e.children),
           WideEntity(e.usageLogs), WideJoins(e.accountGroups))
  }

  function WideJoins(q: Option<AccountGroupQ>): Option<AccountGroupQ>
    decreases q
  {
    if q.None? then None
    else Some(AccountGroupQ(Wide(q.value.sel), WideAccounts(q.value.account), WideEntity(q.value.group)))
  }

  // ---- leaves --------------------------------------------------------------------------

  lemma DecodedInts(columns: seq<Column>, rows: seq<Row>, c: Column)
    requires c in columns
    ensures Ints(DecodeAll(columns, rows), c) == Ints(rows, c)
  {
    forall i | 0 <= i < |rows|
      ensures IntOf(DecodeAll(columns, rows)[i], c) == IntOf(rows[i], c)
    {
      DecodeKey(columns, rows[i], c);
    }
  }

  lemma PickedInts<K>(p: K -> bool, keys: seq<K>, rows: seq<Row>, c: Column)
    requires |keys| == |rows|
    ensures Ints(Picked(p, keys, rows), c) == Picked(p, keys, Ints(rows, c))
  {
    PositionsMembers(p, keys);
  }

  lemma GroupsSame(st: Store, q: Option<EntityQ>, rows: seq<Row>, i: nat)
    requires WellTyped(st) && i < |rows|
    ensures Ints(GroupsEdge(st, q, rows)[i], Id) == Ints(GroupsEdge(st, WideEntity(q), rows)[i], Id)
  {
    hide WellTyped, JoinResult, GroupsFor, Gather, DecodeAll, EntityColumns;
    if q.Some? {
      var ids := Ints(rows, Id);
      var pairs := Pairs(JoinResult(st, q.value, ids));
      WideJoin(st, q.value, ids);
      GroupsKeyed(st);
      IdSelected(st.groups.columns, q.value.sel.fields);
      IdSelected(st.groups.columns, []);
      GatheredInts(Outs(pairs), Ins(pairs), EntityColumns(st.groups.columns, q.value.sel.fields), ids[i]);
      GatheredInts(Outs(pairs), Ins(pairs), EntityColumns(st.groups.columns, []), ids[i]);
      GroupsAt(st, q.value, ids, i);
      GroupsAt(st, WideEntity(q).value, ids, i);
    }
  }

  lemma WideJoin(st: Store, q: EntityQ, ids: seq<int>)
    ensures JoinResult(st, q.(sel := Wide(q.sel)), ids) == JoinResult(st, q, ids)
  {
  }

  // Which columns are selected has no bearing on which rows are.
  lemma WideSelect(rows: seq<Row>, sel: Selection, f: Column, p: Predicate)
    ensures Select(rows, Wide(sel).WithField(f).Where(p)) == Select(rows, sel.WithField(f).Where(p))
    ensures Select(rows, Wide(sel).Where(p)) == Select(rows, sel.Where(p))
    ensures Wide(sel).WithField(f).fields == []
  {
  }

  lemma GroupsAt(st: Store, q: EntityQ, ids: seq<int>, i: nat)
    requires i < |ids|
    ensures var pairs := Pairs(JoinResult(st, q, ids));
            var gids := Ints(Ins(pairs), Id);
            var rows := DecodeAll(EntityColumns(st.groups.columns, q.sel.fields), Ins(pairs));
            GroupsFor(st, q, ids)[i]
            == if LastIndex(ids, ids[i]) == i then Gather(Outs(pairs), gids, rows, ids[i]) else []
  {
  }

  lemma GatheredInts(outs: seq<int>, rows: seq<Row>, columns: seq<Column>, a: int)
    requires Id in columns && |outs| == |rows|
    ensures var gids := Ints(rows, Id);
            (Ints(Gather(outs, gids, DecodeAll(columns, rows), a), Id)
             == Picked(MemberOf(outs, gids, a), At(gids, Firsts(gids)), At(gids, Firsts(gids))))
  {
    var gids := Ints(rows, Id);
    var firsts := Firsts(gids);
    DecodedInts(columns, rows, Id);
    PickedInts(MemberOf(outs, gids, a), At(gids, firsts), At(DecodeAll(columns, rows), firsts), Id);
    assert Ints(At(DecodeAll(columns, rows), firsts), Id) == At(gids, firsts);
  }

  lemma EntitySame(t: Table, q: Option<EntityQ>, keys: seq<Option<int>>, i: nat)
    requires Id in t.columns && i < |keys|
    ensures IdOf(EntityEdge(t, q, keys)[i]) == IdOf(EntityEdge(t, WideEntity(q), keys)[i])
  {
    hide Select, DecodeAll, Distinct;
    if q.Some? {
      var sel := q.value.sel.Where(InValues(Id, Distinct(keys)));
      var rows := Select(t.rows, sel);
      WideSelect(t.rows, q.value.sel, Id, InValues(Id, Distinct(keys)));
      DecodedInts(EntityColumns(t.columns, sel.fields), rows, Id);
      DecodedInts(t.columns, rows, Id);
      LinkedIds(keys[i], Ints(rows, Id), DecodeAll(EntityColumns(t.columns, sel.fields), rows),
          DecodeAll(t.columns, rows));
    }
  }

  lemma LinkedIds(key: Option<int>, ids: seq<int>, xs: seq<Row>, ys: seq<Row>)
    requires |ids| == |xs| == |ys| && Ints(xs, Id) == Ints(ys, Id)
    ensures IdOf(Linked(key, ids, xs)) == IdOf(Linked(key, ids, ys))
  {
    if key.Some? && LastIndex(ids, key.value) >= 0 {
      var i := LastIndex(ids, key.value);
      assert Ints(xs, Id)[i] == Ints(ys, Id)[i];
    }
  }

  lemma FanInts(ids: seq<int>, i: nat, fks: seq<int>, columns: seq<Column>, batch: seq<Row>)
    requires Id in columns && i < |ids| && |fks| == |batch|
    ensures Ints(Fan(ids, i, fks, DecodeAll(columns, batch)), Id) == Fan(ids, i, fks, Ints(batch, Id))
  {
    DecodedInts(columns, batch, Id);
    PickedInts(Is(ids[i]), fks, DecodeAll(columns, batch), Id);
  }

  lemma LogsSame(st: Store, q: Option<EntityQ>, rows: seq<Row>, i: nat)
    requires WellTyped(st) && i < |rows|
    ensures Ints(LogsEdge(st, q, rows)[i], Id) == Ints(LogsEdge(st, WideEntity(q), rows)[i], Id)
  {
    hide WellTyped, Select, Fan, DecodeAll, EntityColumns;
    if q.Some? {
      var ids := Ints(rows, Id);
      var sel := LogSelection(q.value.sel, ids);
      var batch := Select(st.usageLogs.rows, sel);
      WideSelect(st.usageLogs.rows, q.value.sel, AccountId, InValues(AccountId, ids));
      LogsKeyed(st);
      IdSelected(st.usageLogs.columns, sel.fields);
      IdSelected(st.usageLogs.columns, []);
      FanInts(ids, i, Ints(batch, AccountId), EntityColumns(st.usageLogs.columns, sel.fields), batch);
      FanInts(ids, i, Ints(batch, AccountId), EntityColumns(st.usageLogs.columns, []), batch);
    }
  }

  // ---- the whole tree --------------------------------------------------------------------

  // For any fields at the root and at every subquery, the loaded graph has the
  // shape that it has when every column is selected.
  lemma {:induction false} FieldsAreTransparent(
    st: Store, fields: seq<Column>, fields': seq<Column>, e: EdgesQ, rows: seq<Row>)
    requires WellTyped(st)
    ensures ShapesOf(Loaded(st, fields, e, rows)) == ShapesOf(Loaded(st, fields', WideEdges(e), rows))
    decreases e, 2
  {
    hide WellTyped, Loaded, ShapeOf, MaybeShape, JoinShapesOf, WideEntity, WideAccounts, WideJoins;
    hide GroupsEdge, EntityEdge, AccountEdge, ChildrenEdge, LogsEdge, JoinsEdge;
    forall i | 0 <= i < |rows|
      ensures ShapeOf(Loaded(st, fields, e, rows)[i]) == ShapeOf(Loaded(st, fields', WideEdges(e), rows)[i])
    {
      NodeShape(st, fields, e, rows, i);
      NodeShape(st, fields', WideEdges(e), rows, i);
      GroupsSame(st, e.groups, rows, i);
      ProxiesKeyed(st);
      EntitySame(st.proxies, e.proxy, Keys(rows, ProxyId), i);
      LogsSame(st, e.usageLogs, rows, i);
      AccountsSame(st, e.parent, Keys(rows, ParentAccountId), i);
      ChildrenSame(st, e.children, rows, i);
      JoinsSame(st, e.accountGroups, rows, i);
    }
  }

  // The shape of a node is its id and the shapes of its edges.
  lemma NodeShape(st: Store, fields: seq<Column>, e: EdgesQ, rows: seq<Row>, i: nat)
    requires WellTyped(st) && i < |rows|
    ensures ShapeOf(Loaded(st, fields, e, rows)[i])
         == Shape(IntOf(rows[i], Id), Ints(GroupsEdge(st, e.groups, rows)[i], Id),
              IdOf(EntityEdge(st.proxies, e.proxy, Keys(rows, ProxyId))[i]),
              MaybeShape(AccountEdge(st, e.parent, Keys(rows, ParentAccountId))[i]),
              ShapesOf(ChildrenEdge(st, e.children, rows)[i]), Ints(LogsEdge(st, e.usageLogs, rows)[i], Id),
              JoinShapesOf(JoinsEdge(st, e.accountGroups, rows)[i]))
  {
    hide WellTyped, ShapesOf, JoinShapesOf;
    hide GroupsEdge, EntityEdge, AccountEdge, ChildrenEdge, LogsEdge, JoinsEdge;
    LoadedId(st, fields, e, rows, i);
  }

  lemma {:induction false} AccountsSame(st: Store, q: Option<AccountQ>, keys: seq<Option<int>>, i: nat)
    requires WellTyped(st) && i < |keys|
    ensures MaybeShape(AccountEdge(st, q, keys)[i]) == MaybeShape(AccountEdge(st, WideAccounts(q), keys)[i])
    decreases q
  {
    hide WellTyped, Select, Loaded, ShapesOf, Distinct, WideEdges;
    if q.Some? {
      var sel := q.value.sel.Where(InValues(Id, Distinct(keys)));
      var rows := Select(st.accounts.rows, sel);
      WideSelect(st.accounts.rows, q.value.sel, Id, InValues(Id, Distinct(keys)));
      FieldsAreTransparent(st, sel.fields, [], q.value.edges, rows);
      LinkedShapes(keys[i], Ints(rows, Id), Loaded(st, sel.fields, q.value.edges, rows),
          Loaded(st, [], WideEdges(q.value.edges), rows));
    }
  }

  lemma LinkedShapes(key: Option<int>, ids: seq<int>, xs: seq<AccountTree>, ys: seq<AccountTree>)
    requires |ids| == |xs| == |ys| && ShapesOf(xs) == ShapesOf(ys)
    ensures MaybeShape(Linked(key, ids, xs)) == MaybeShape(Linked(key, ids, ys))
  {
    if key.Some? && LastIndex(ids, key.value) >= 0 {
      var i := LastIndex(ids, key.value);
      assert ShapesOf(xs)[i] == ShapesOf(ys)[i];
    }
  }

  lemma FanShapes(ids: seq<int>, i: nat, fks: seq<int>, xs: seq<AccountTree>)
    requires i < |ids| && |fks| == |xs|
    ensures ShapesOf(Fan(ids, i, fks, xs)) == Fan(ids, i, fks, ShapesOf(xs))
  {
    PositionsMembers(Is(ids[i]), fks);
  }

  lemma FanJoinShapes(ids: seq<int>, i: nat, fks: seq<int>, xs: seq<AccountGroupTree>)
    requires i < |ids| && |fks| == |xs|
    ensures JoinShapesOf(Fan(ids, i, fks, xs)) == Fan(ids, i, fks, JoinShapesOf(xs))
  {
    PositionsMembers(Is(ids[i]), fks);
  }

  lemma {:induction false} ChildrenSame(st: Store, q: Option<AccountQ>, rows: seq<Row>, i: nat)
    requires WellTyped(st) && i < |rows|
    ensures ShapesOf(ChildrenEdge(st, q, rows)[i]) == ShapesOf(ChildrenEdge(st, WideAccounts(q), rows)[i])
    decreases q
  {
    hide WellTyped, Select, Loaded, WideEdges, ShapesOf, Fan, Ints;
    if q.Some? {
      var ids := Ints(rows, Id);
      var sel := ChildSelection(q.value.sel, ids);
      var batch := Select(st.accounts.rows, sel);
      var fks := Ints(batch, ParentAccountId);
      WideSelect(st.accounts.rows, q.value.sel, ParentAccountId, InValues(ParentAccountId, ids));
      FieldsAreTransparent(st, sel.fields, [], q.value.edges, batch);
      FanShapes(ids, i, fks, Loaded(st, sel.fields, q.value.edges, batch));
      FanShapes(ids, i, fks, Loaded(st, [], WideEdges(q.value.edges), batch));
    }
  }

  lemma {:induction false} JoinsSame(st: Store, q: Option<AccountGroupQ>, rows: seq<Row>, i: nat)
    requires WellTyped(st) && i < |rows|
    ensures JoinShapesOf(JoinsEdge(st, q, rows)[i]) == JoinShapesOf(JoinsEdge(st, WideJoins(q), rows)[i])
    decreases q
  {
    hide WellTyped, Select, LoadedGroups, WideAccounts, WideEntity, JoinShapesOf, Fan, Ints;
    if q.Some? {
      var ids := Ints(rows, Id);
      var sel := JoinSelection(q.value.sel, ids);
      var batch := Select(st.accountGroups.rows, sel);
      var fks := Ints(batch, AccountId);
      WideSelect(st.accountGroups.rows, q.value.sel, AccountId, InValues(AccountId, ids));
      JoinRowsSame(st, q.value, ids, batch);
      FanJoinShapes(ids, i, fks, LoadedGroups(st, sel.fields, q.value, batch));
      FanJoinShapes(ids, i, fks, LoadedGroups(st, [], WideJoins(q).value, batch));
    }
  }

  lemma {:induction false} JoinRowsSame(st: Store, q: AccountGroupQ, ids: seq<int>, batch: seq<Row>)
    requires WellTyped(st)
    ensures JoinShapesOf(LoadedGroups(st, JoinSelection(q.sel, ids).fields, q, batch))
         == JoinShapesOf(LoadedGroups(st, [], WideJoins(Some(q)).value, batch))
    decreases q, 0
  {
    hide WellTyped, AccountEdge, EntityEdge, AccountGroupColumns, WideAccounts, WideEntity;
    var fields, q' := JoinSelection(q.sel, ids).fields, WideJoins(Some(q)).value;
    GroupIdsKeyed(st);
    JoinFieldSelected(st, q.sel, ids, q.account.Some?, q.group.Some?);
    forall i | 0 <= i < |batch|
      ensures JoinShapeOf(LoadedGroups(st, fields, q, batch)[i]) == JoinShapeOf(LoadedGroups(st, [], q', batch)[i])
    {
      DecodeKey(AccountGroupColumns(st.accountGroups.columns, fields, q.account.Some?, q.group.Some?), batch[i],
          AccountId);
      DecodeKey(AccountGroupColumns(st.accountGroups.columns, [], q'.account.Some?, q'.group.Some?), batch[i],
          AccountId);
      AccountsSame(st, q.account, Somes(Ints(batch, AccountId)), i);
      EntitySame(st.groups, q.group, Somes(Ints(batch, GroupId)), i);
    }
  }

  lemma GroupIdsKeyed(st: Store)
    requires WellTyped(st)
    ensures Id in st.groups.columns && AccountId in st.accountGroups.columns
    ensures forall a, g :: AccountId in AccountGroupColumns(st.accountGroups.columns, [], a, g)
  {
  }

  lemma RunIsTransparent(st: Store, q: AccountQ)
    requires WellTyped(st)
    ensures ShapesOf(AccountTrees(st, q)) == ShapesOf(AccountTrees(st, AccountQ(Wide(q.sel), WideEdges(q.edges))))
  {
    assert Select(st.accounts.rows, Wide(q.sel)) == Select(st.accounts.rows, q.sel);
    FieldsAreTransparent(st, q.sel.fields, [], q.edges, Select(st.accounts.rows, q.sel));
  }
}
