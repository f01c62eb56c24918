// The naive per-node join and the proof that batched loading computes it.
module NaiveJoin {
  import opened Lists
  import opened Rows
  import opened Entities
  import opened EagerSpec
  import opened GroupJoins

  // ---- the store --------------------------------------------------------------

  ghost predicate UniqueIds(rows: seq<Row>) {
    && (forall r :: r in rows ==> CellOf(r, Id).IntCell?)
    && (forall r :: multiset(rows)[r] <= 1)
    && (forall r, s :: r in rows && s in rows && IntOf(r, Id) == IntOf(s, Id) ==> r == s)
  }

  // A store whose account and group ids are primary keys.
  ghost predicate ValidStore(st: Store) {
    WellTyped(st) && UniqueIds(st.accounts.rows) && UniqueIds(st.groups.rows)
  }

  lemma UniqueSubset(rows: seq<Row>, part: seq<Row>)
    requires UniqueIds(rows) && multiset(part) <= multiset(rows)
    ensures UniqueIds(part)
  {
    forall r | r in part
      ensures r in rows
    {
      assert r in multiset(part);
    }
    forall r
      ensures multiset(part)[r] <= 1
    {
      assert multiset(part)[r] <= multiset(rows)[r];
    }
  }

  lemma {:induction false} FilterPart<T>(p: T -> bool, s: seq<T>)
    ensures multiset(Filter(p, s)) <= multiset(s)
  {
    if s != [] {
      FilterPart(p, s[..|s| - 1]);
      assert s == s[..|s| - 1] + [s[|s| - 1]];
    }
  }

  lemma SlicePart<T>(s: seq<T>, k: nat)
    requires k <= |s|
    ensures multiset(s[k..]) <= multiset(s) && multiset(s[..k]) <= multiset(s)
  {
    assert s == s[..k] + s[k..];
  }

  lemma PagePart<T>(limit: Option<nat>, offset: Option<nat>, s: seq<T>)
    ensures multiset(Page(limit, offset, s)) <= multiset(s)
  {
    var k := if offset.Some? && offset.value <= |s| then offset.value else if offset.Some? then |s| else 0;
    SlicePart(s, k);
    assert Page(None, offset, s) == s[k..];
    if limit.Some? && limit.value <= |s[k..]| {
      SlicePart(s[k..], limit.value);
    }
  }

  lemma SelectPart(rows: seq<Row>, sel: Selection)
    ensures multiset(Select(rows, sel)) <= multiset(rows)
  {
    FilterPart(Matching(sel.predicates), rows);
    SortSorted(sel.order, Filter(Matching(sel.predicates), rows));
    PagePart(sel.limit, sel.offset, Sift(rows, sel));
  }

  lemma SelectUnique(rows: seq<Row>, sel: Selection)
    requires UniqueIds(rows)
    ensures UniqueIds(Select(rows, sel))
    ensures UniqueIds(Sift(rows, sel))
  {
    SelectPart(rows, sel);
    UniqueSubset(rows, Select(rows, sel));
    FilterPart(Matching(sel.predicates), rows);
    SortSorted(sel.order, Filter(Matching(sel.predicates), rows));
    UniqueSubset(rows, Sift(rows, sel));
  }

  lemma UniqueIndices(rows: seq<Row>, i: nat, j: nat)
    requires UniqueIds(rows) && i < j < |rows|
    ensures IntOf(rows[i], Id) != IntOf(rows[j], Id)
  {
    if rows[i] == rows[j] {
      Twice(rows, i, j);
    }
  }

  lemma Twice<T>(s: seq<T>, i: nat, j: nat)
    requires i < j < |s| && s[i] == s[j]
    ensures multiset(s)[s[i]] >= 2
  {
    assert s == s[..j] + s[j..];
    assert s[i] in s[..j] && s[j] in s[j..];
  }

  // With unique ids every node is the last, and only, one with its id.
  lemma UniqueOwner(rows: seq<Row>, i: nat)
    requires UniqueIds(rows) && i < |rows|
    ensures LastIndex(Ints(rows, Id), IntOf(rows[i], Id)) == i
  {
    var ids := Ints(rows, Id);
    var j := LastIndex(ids, ids[i]);
    assert j >= i;
    if i < j {
      UniqueIndices(rows, i, j);
    }
  }

  // ---- the naive join -----------------------------------------------------------

  function LinkedTo(joinRows: seq<Row>, a: int): Predicate {
    (g: Row) => exists i :: 0 <= i < |joinRows| && Joins(joinRows[i], g) && Equals(AccountId, a)(joinRows[i])
  }

  function LastOf<T>(s: seq<T>): Option<T> {
    if s == [] then None else Some(s[|s| - 1])
  }

  ghost function NaiveEntity(t: Table, q: Option<EntityQ>, key: Option<int>): Option<Row> {
    if q.None? || key.None? then None
    else
      var sel := q.value.sel;
      LastOf(DecodeAll(EntityColumns(t.columns, sel.fields), Select(t.rows, sel.Where(Equals(Id, key.value)))))
  }

  ghost function NaiveAccount(st: Store, q: Option<AccountQ>, key: Option<int>): Option<AccountTree>
    decreases q
  {
    if q.None? || key.None? then None
    else
      var sel := q.value.sel;
      LastOf(NaiveTrees(st, sel.fields, q.value.edges, Select(st.accounts.rows, sel.Where(Equals(Id, key.value)))))
  }

  ghost function NaiveTrees(st: Store, fields: seq<Column>, e: EdgesQ, rows: seq<Row>): (r: seq<AccountTree>)
    ensures |r| == |rows| && forall i :: 0 <= i < |rows| ==> r[i] == NaiveTree(st, fields, e, rows[i])
    decreases e, 1
  {
    seq(|rows|, i requires 0 <= i < |rows| => NaiveTree(st, fields, e, rows[i]))
  }

  ghost function NaiveGroups(st: Store, q: Option<EntityQ>, id: int): seq<Row> {
    if q.None? then []
    else
      DecodeAll(EntityColumns(st.groups.columns, q.value.sel.fields),
                Select(st.groups.rows, q.value.sel.Where(LinkedTo(st.accountGroups.rows, id))))
  }

  ghost function NaiveLogs(st: Store, q: Option<EntityQ>, id: int): seq<Row> {
    if q.None? then []
    else
      var sel := q.value.sel.WithField(AccountId);
      DecodeAll(EntityColumns(st.usageLogs.columns, sel.fields),
                Select(st.usageLogs.rows, sel.Where(Equals(AccountId, id))))
  }

  ghost function NaiveChildren(st: Store, q: Option<AccountQ>, id: int): seq<AccountTree>
    decreases q
  {
    if q.None? then []
    else
      var sel := q.value.sel.WithField(ParentAccountId);
      NaiveTrees(st, sel.fields, q.value.edges, Select(st.accounts.rows, sel.Where(Equals(ParentAccountId, id))))
  }

  ghost function NaiveJoins(st: Store, q: Option<AccountGroupQ>, id: int): seq<AccountGroupTree>
    decreases q
  {
    if q.None? then []
    else
      var sel := q.value.sel.WithField(AccountId);
      NaiveGroupTrees(st, sel.fields, q.value, Select(st.accountGroups.rows, sel.Where(Equals(AccountId, id))))
  }

  // Account `row` with every requested edge joined for this row alone.
  ghost function NaiveTree(st: Store, fields: seq<Column>, e: EdgesQ, row: Row): AccountTree
    decreases e, 0
  {
    var id := IntOf(row, Id);
    AccountTree(
      Decode(AccountColumns(st.accounts.columns, fields, e.proxy.Some?, e.parent.Some?), row),
      e.LoadedTypes(),
      NaiveGroups(st, e.groups, id),
      NaiveEntity(st.proxies, e.proxy, KeyOf(row, ProxyId)),
      NaiveAccount(st, e.parent, KeyOf(row, ParentAccountId)),
      NaiveChildren(st, e.children, id),
      NaiveLogs(st, e.usageLogs, id),
      NaiveJoins(st, e.accountGroups, id))
  }

  ghost function NaiveGroupTrees(
    st: Store, fields: seq<Column>, q: AccountGroupQ, rows: seq<Row>): (r: seq<AccountGroupTree>)
    ensures |r| == |rows| && forall i :: 0 <= i < |rows| ==> r[i] == NaiveGroupTree(st, fields, q, rows[i])
    decreases q, 1
  {
    seq(|rows|, i requires 0 <= i < |rows| => NaiveGroupTree(st, fields, q, rows[i]))
  }

  ghost function NaiveGroupTree(st: Store, fields: seq<Column>, q: AccountGroupQ, row: Row): AccountGroupTree
    decreases q, 0
  {
    AccountGroupTree(
      Decode(AccountGroupColumns(st.accountGroups.columns, fields, q.account.Some?, q.group.Some?), row),
      q.LoadedTypes(),
      NaiveAccount(st, q.account, Some(IntOf(row, AccountId))),
      NaiveEntity(st.groups, q.group, Some(IntOf(row, GroupId))))
  }

  // ---- fresh trees: no paging below the root, no join predicate of an earlier run ---

  predicate PlainAccounts(q: AccountQ) {
    q.sel.Unpaged() && PlainEdges(q.edges)
  }

  predicate PlainEdges(e: EdgesQ) {
    && (e.groups.Some? ==> e.groups.value.sel.Unpaged() && e.groups.value.joins == [])
    && (e.proxy.Some? ==> e.proxy.value.sel.Unpaged())
    && (e.parent.Some? ==> PlainAccounts(e.parent.value))
    && (e.children.Some? ==> PlainAccounts(e.children.value))
    && (e.usageLogs.Some? ==> e.usageLogs.value.sel.Unpaged())
    && (e.accountGroups.Some? ==> PlainGroups(e.accountGroups.value))
  }

  predicate PlainGroups(q: AccountGroupQ) {
    && q.sel.Unpaged()
    && (q.account.Some? ==> PlainAccounts(q.account.value))
    && (q.group.Some? ==> q.group.value.sel.Unpaged())
  }

  // ---- one edge -----------------------------------------------------------------

  // One-to-many: the slice of the batch that belongs to one key is the result of
  // the query for that key alone.
  lemma FanIsSelect(rows: seq<Row>, sel: Selection, c: Column, ids: seq<int>, id: int)
    requires sel.Unpaged() && id in ids
    ensures var batch := Select(rows, sel.Where(InValues(c, ids)));
            Picked(Is(id), Ints(batch, c), batch) == Select(rows, sel.Where(Equals(c, id)))
  {
    var batch := Select(rows, sel.Where(InValues(c, ids)));
    SelectSatisfies(rows, sel, InValues(c, ids));
    Batching(rows, sel, InValues(c, ids), Equals(c, id));
    forall i | 0 <= i < |batch|
      ensures Equals(c, id)(batch[i]) == Is(id)(Ints(batch, c)[i])
    {
      assert batch[i] in batch;
    }
    PositionsFilter(Is(id), batch, Ints(batch, c), Equals(c, id));
  }

  lemma {:induction false} LastPosition(keys: seq<int>, k: int)
    ensures LastIndex(keys, k) == -1 <==> Positions(Is(k), keys) == []
    ensures Positions(Is(k), keys) != [] ==>
              Positions(Is(k), keys)[|Positions(Is(k), keys)| - 1] == LastIndex(keys, k)
  {
    if keys != [] {
      LastPosition(keys[..|keys| - 1], k);
    }
  }

  // Many-to-one: the neighbour linked to a key is the last row of the query for
  // that key alone.
  lemma LinkIsSelect(rows: seq<Row>, sel: Selection, keys: seq<Option<int>>, k: int)
    requires sel.Unpaged() && Some(k) in keys
    ensures var batch := Select(rows, sel.Where(InValues(Id, Distinct(keys))));
            var i := LastIndex(Ints(batch, Id), k);
            LastOf(Select(rows, sel.Where(Equals(Id, k)))) == if i < 0 then None else Some(batch[i])
  {
    var batch := Select(rows, sel.Where(InValues(Id, Distinct(keys))));
    DistinctMembers(keys);
    FanIsSelect(rows, sel, Id, Distinct(keys), k);
    LastPosition(Ints(batch, Id), k);
  }

  // ---- all edges ------------------------------------------------------------------

  lemma LinkedDecoded(columns: seq<Column>, batch: seq<Row>, single: seq<Row>, k: int)
    requires var i := LastIndex(Ints(batch, Id), k); LastOf(single) == if i < 0 then None else Some(batch[i])
    ensures Linked(Some(k), Ints(batch, Id), DecodeAll(columns, batch)) == LastOf(DecodeAll(columns, single))
  {
  }

  lemma EntitiesNaive(t: Table, q: Option<EntityQ>, keys: seq<Option<int>>, i: nat)
    requires q.Some? ==> q.value.sel.Unpaged()
    requires i < |keys|
    ensures EntityEdge(t, q, keys)[i] == NaiveEntity(t, q, keys[i])
  {
    if q.Some? && keys[i].Some? {
      var sel, k := q.value.sel, keys[i].value;
      LinkIsSelect(t.rows, sel, keys, k);
      LinkedDecoded(EntityColumns(t.columns, sel.fields), Select(t.rows, sel.Where(InValues(Id, Distinct(keys)))),
                    Select(t.rows, sel.Where(Equals(Id, k))), k);
    }
  }

  lemma FanDecoded(columns: seq<Column>, rows: seq<Row>, owners: seq<int>, i: nat, fks: seq<int>)
    requires i < |owners| && |fks| == |rows|
    ensures Fan(owners, i, fks, DecodeAll(columns, rows)) == DecodeAll(columns, Fan(owners, i, fks, rows))
  {
    PositionsMembers(Is(owners[i]), fks);
  }

  lemma LogsNaive(st: Store, q: Option<EntityQ>, rows: seq<Row>, i: nat)
    requires q.Some? ==> q.value.sel.Unpaged()
    requires UniqueIds(rows) && i < |rows|
    ensures LogsEdge(st, q, rows)[i] == NaiveLogs(st, q, IntOf(rows[i], Id))
  {
    hide Select, Picked, DecodeAll, EntityColumns, UniqueIds;
    if q.Some? {
      var sel, ids := q.value.sel.WithField(AccountId), Ints(rows, Id);
      var batch := Select(st.usageLogs.rows, sel.Where(InValues(AccountId, ids)));
      UniqueOwner(rows, i);
      assert ids[i] in ids && sel.Unpaged();
      FanIsSelect(st.usageLogs.rows, sel, AccountId, ids, ids[i]);
      FanDecoded(EntityColumns(st.usageLogs.columns, sel.fields), batch, ids, i, Ints(batch, AccountId));
    }
  }

  // ---- groups ---------------------------------------------------------------------

  lemma {:induction false} LinksMembers(joinRows: seq<Row>, g: Row, ids: seq<int>, a: int)
    ensures a in LinksOf(joinRows, g, ids) <==> a in ids && LinkedTo(joinRows, a)(g)
  {
    if joinRows != [] {
      var t := joinRows[..|joinRows| - 1];
      var r := joinRows[|joinRows| - 1];
      LinksMembers(t, g, ids, a);
      assert forall i :: 0 <= i < |t| ==> t[i] == joinRows[i];
      assert LinkedTo(joinRows, a)(g) <==> LinkedTo(t, a)(g) || (Joins(r, g) && Equals(AccountId, a)(r));
    }
  }

  lemma {:induction false} FirstsRepeat(gids: seq<int>, g: int, n: nat)
    requires g !in gids
    ensures Firsts(gids + Repeat(n, g)) == if n == 0 then Firsts(gids) else Firsts(gids) + [|gids|]
  {
    hide Firsts, Repeat;
    if n == 0 {
      assert gids + Repeat(0, g) == gids;
    } else {
      var before := gids + Repeat(n - 1, g);
      assert gids + Repeat(n, g) == before + [g];
      FirstsRepeat(gids, g, n - 1);
      FirstsSnoc(before, g);
      if n > 1 {
        assert before[|gids|] == g;
      } else {
        assert before == gids;
      }
    }
  }

  lemma FirstsSnoc(gids: seq<int>, g: int)
    ensures Firsts(gids + [g]) == if g in gids then Firsts(gids) else Firsts(gids) + [|gids|]
  {
    assert (gids + [g])[..|gids|] == gids;
  }

  function Reached(joinRows: seq<Row>, ids: seq<int>): Predicate {
    (g: Row) => LinksOf(joinRows, g, ids) != []
  }

  // In a join that lists one group after the other, the first rows of the groups
  // are the reached groups in order.
  lemma {:induction false} JoinFirsts(joinRows: seq<Row>, gs: seq<Row>, ids: seq<int>)
    requires UniqueIds(gs)
    ensures forall g :: g in Ins(JoinRows(joinRows, gs, ids)) ==> g in gs
    ensures FirstRows(Ins(JoinRows(joinRows, gs, ids))) == Filter(Reached(joinRows, ids), gs)
  {
    if gs != [] {
      var t, g := gs[..|gs| - 1], gs[|gs| - 1];
      assert gs == t + [g];
      UniqueSubset(gs, t);
      JoinFirsts(joinRows, t, ids);
      var before := Ins(JoinRows(joinRows, t, ids));
      NewGroup(t, g, before);
      assert Ins(JoinRows(joinRows, gs, ids)) == before + Repeat(|LinksOf(joinRows, g, ids)|, g);
      FirstRowsRepeat(before, g, |LinksOf(joinRows, g, ids)|);
    }
  }

  // The rows that introduce a new id.
  function FirstRows(rows: seq<Row>): seq<Row> {
    At(rows, Firsts(Ints(rows, Id)))
  }

  lemma FirstRowsRepeat(rows: seq<Row>, g: Row, n: nat)
    requires IntOf(g, Id) !in Ints(rows, Id)
    ensures FirstRows(rows + Repeat(n, g)) == if n == 0 then FirstRows(rows) else FirstRows(rows) + [g]
  {
    hide Repeat, Firsts, IntOf;
    var gids := Ints(rows, Id);
    assert Ints(rows + Repeat(n, g), Id) == gids + Repeat(n, IntOf(g, Id));
    FirstsRepeat(gids, IntOf(g, Id), n);
    AtPrefix(rows, rows + Repeat(n, g), Firsts(gids));
  }

  lemma NewGroup(t: seq<Row>, g: Row, before: seq<Row>)
    requires UniqueIds(t + [g])
    requires forall r :: r in before ==> r in t
    ensures IntOf(g, Id) !in Ints(before, Id)
  {
    forall j | 0 <= j < |before|
      ensures IntOf(before[j], Id) != IntOf(g, Id)
    {
      assert before[j] in t;
      var i :| 0 <= i < |t| && t[i] == before[j];
      UniqueIndices(t + [g], i, |t|);
    }
  }

  lemma AtPrefix<T>(xs: seq<T>, ys: seq<T>, ps: seq<nat>)
    requires xs <= ys && forall j :: j in ps ==> j < |xs|
    ensures At(ys, ps) == At(xs, ps)
  {
  }

  lemma {:induction false} JoinMembers(joinRows: seq<Row>, gs: seq<Row>, ids: seq<int>, a: int, g: Row)
    requires UniqueIds(gs) && g in gs
    ensures var pairs := JoinRows(joinRows, gs, ids);
            MemberOf(Outs(pairs), Ints(Ins(pairs), Id), a)(IntOf(g, Id)) <==> a in LinksOf(joinRows, g, ids)
  {
    var pairs := JoinRows(joinRows, gs, ids);
    var gids := Ints(Ins(pairs), Id);
    if MemberOf(Outs(pairs), gids, a)(IntOf(g, Id)) {
      var j :| 0 <= j < |gids| && gids[j] == IntOf(g, Id) && Outs(pairs)[j] == a;
      PairSound(joinRows, gs, ids, j);
    }
    if a in LinksOf(joinRows, g, ids) {
      var j := PairComplete(joinRows, gs, ids, a, g);
      assert gids[j] == IntOf(g, Id) && Outs(pairs)[j] == a;
    }
  }

  lemma {:induction false} PairSound(joinRows: seq<Row>, gs: seq<Row>, ids: seq<int>, j: nat)
    requires j < |JoinRows(joinRows, gs, ids)|
    ensures var p := JoinRows(joinRows, gs, ids)[j]; p.1 in gs && p.0 in LinksOf(joinRows, p.1, ids)
  {
    var t, g := gs[..|gs| - 1], gs[|gs| - 1];
    var before := JoinRows(joinRows, t, ids);
    if j < |before| {
      PairSound(joinRows, t, ids, j);
    } else {
      assert JoinRows(joinRows, gs, ids)[j] == Tagged(LinksOf(joinRows, g, ids), g)[j - |before|];
    }
  }

  lemma {:induction false} PairComplete(joinRows: seq<Row>, gs: seq<Row>, ids: seq<int>, a: int, g: Row)
    returns (j: nat)
    requires g in gs && a in LinksOf(joinRows, g, ids)
    ensures j < |JoinRows(joinRows, gs, ids)| && JoinRows(joinRows, gs, ids)[j] == (a, g)
  {
    var t, l := gs[..|gs| - 1], gs[|gs| - 1];
    if g == l {
      var ls := LinksOf(joinRows, g, ids);
      var i :| 0 <= i < |ls| && ls[i] == a;
      j := |JoinRows(joinRows, t, ids)| + i;
      assert Tagged(ls, g)[i] == (a, g);
    } else {
      assert gs == t + [l];
      j := PairComplete(joinRows, t, ids, a, g);
    }
  }

  lemma GatherIsSelect(joinRows: seq<Row>, gs: seq<Row>, ids: seq<int>, a: int)
    requires UniqueIds(gs) && a in ids
    ensures var pairs := JoinRows(joinRows, gs, ids);
            Gather(Outs(pairs), Ints(Ins(pairs), Id), Ins(pairs), a) == Filter(LinkedTo(joinRows, a), gs)
  {
    var pairs := JoinRows(joinRows, gs, ids);
    var outs, gids := Outs(pairs), Ints(Ins(pairs), Id);
    var firsts := Firsts(gids);
    var neighbours := FirstRows(Ins(pairs));
    JoinFirsts(joinRows, gs, ids);
    FilterMembers(Reached(joinRows, ids), gs);
    forall i | 0 <= i < |neighbours|
      ensures LinkedTo(joinRows, a)(neighbours[i]) == MemberOf(outs, gids, a)(At(gids, firsts)[i])
    {
      assert neighbours[i] in gs;
      JoinMembers(joinRows, gs, ids, a, neighbours[i]);
      LinksMembers(joinRows, neighbours[i], ids, a);
    }
    PositionsFilter(MemberOf(outs, gids, a), neighbours, At(gids, firsts), LinkedTo(joinRows, a));
    forall g | g in gs
      ensures LinkedTo(joinRows, a)(g) ==> Reached(joinRows, ids)(g)
    {
      LinksMembers(joinRows, g, ids, a);
    }
    FilterFilter(LinkedTo(joinRows, a), Reached(joinRows, ids), LinkedTo(joinRows, a), gs);
  }

  lemma GatherDecoded(outs: seq<int>, gids: seq<int>, columns: seq<Column>, rows: seq<Row>, a: int)
    requires |outs| == |gids| == |rows|
    ensures Gather(outs, gids, DecodeAll(columns, rows), a) == DecodeAll(columns, Gather(outs, gids, rows, a))
  {
    PositionsMembers(MemberOf(outs, gids, a), At(gids, Firsts(gids)));
  }

  lemma GroupJoinUnpaged(st: Store, sel: Selection, ids: seq<int>)
    requires sel.Unpaged()
    ensures GroupJoin(st, sel, ids) == JoinRows(st.accountGroups.rows, Sift(st.groups.rows, sel), ids)
  {
  }

  lemma SelectUnpaged(rows: seq<Row>, sel: Selection, p: Predicate)
    requires sel.Unpaged()
    ensures Select(rows, sel.Where(p)) == Filter(p, Sift(rows, sel))
  {
    SiftWhere(rows, sel, p);
  }

  lemma GroupsNaive(st: Store, q: Option<EntityQ>, rows: seq<Row>, i: nat)
    requires q.Some? ==> q.value.sel.Unpaged() && q.value.joins == []
    requires UniqueIds(rows) && UniqueIds(st.groups.rows) && i < |rows|
    ensures GroupsEdge(st, q, rows)[i] == NaiveGroups(st, q, IntOf(rows[i], Id))
  {
    hide Sift, JoinRows, JoinResult, Page, Select, Gather, DecodeAll, EntityColumns, LinkedTo, UniqueIds;
    if q.Some? {
      var sel := q.value.sel;
      var ids, gs, joinRows := Ints(rows, Id), Sift(st.groups.rows, sel), st.accountGroups.rows;
      var pairs := JoinRows(joinRows, gs, ids);
      FreshResult(st, q.value, ids);
      GroupJoinUnpaged(st, sel, ids);
      UniqueOwner(rows, i);
      SelectUnique(st.groups.rows, sel);
      assert ids[i] in ids;
      GatherIsSelect(joinRows, gs, ids, ids[i]);
      GatherDecoded(Outs(pairs), Ints(Ins(pairs), Id), EntityColumns(st.groups.columns, sel.fields), Ins(pairs),
          ids[i]);
      SelectUnpaged(st.groups.rows, sel, LinkedTo(joinRows, ids[i]));
    }
  }

  // ---- the whole tree ---------------------------------------------------------------

  // The batched graph of a query tree is the naive per-node join, for rows with
  // distinct ids and no paging below the root.
  lemma {:induction false} BatchIsNaive(st: Store, fields: seq<Column>, e: EdgesQ, rows: seq<Row>)
    requires ValidStore(st) && PlainEdges(e) && UniqueIds(rows)
    ensures Loaded(st, fields, e, rows) == NaiveTrees(st, fields, e, rows)
    decreases e, 2
  {
    forall i | 0 <= i < |rows|
      ensures Loaded(st, fields, e, rows)[i] == NaiveTree(st, fields, e, rows[i])
    {
      NodeIsNaive(st, fields, e, rows, i);
    }
  }

  lemma {:induction false} NodeIsNaive(st: Store, fields: seq<Column>, e: EdgesQ, rows: seq<Row>, i: nat)
    requires ValidStore(st) && PlainEdges(e) && UniqueIds(rows) && i < |rows|
    ensures LoadedNode(st, fields, e, rows, i) == NaiveTree(st, fields, e, rows[i])
    decreases e, 1
  {
    LeafEdgesNaive(st, e, rows, i);
    TreeEdgesNaive(st, e, rows, i);
  }

  lemma LeafEdgesNaive(st: Store, e: EdgesQ, rows: seq<Row>, i: nat)
    requires ValidStore(st) && PlainEdges(e) && UniqueIds(rows) && i < |rows|
    ensures GroupsEdge(st, e.groups, rows)[i] == NaiveGroups(st, e.groups, IntOf(rows[i], Id))
    ensures EntityEdge(st.proxies, e.proxy, Keys(rows, ProxyId))[i]
           == NaiveEntity(st.proxies, e.proxy, KeyOf(rows[i], ProxyId))
    ensures LogsEdge(st, e.usageLogs, rows)[i] == NaiveLogs(st, e.usageLogs, IntOf(rows[i], Id))
  {
    GroupsNaive(st, e.groups, rows, i);
    EntitiesNaive(st.proxies, e.proxy, Keys(rows, ProxyId), i);
    LogsNaive(st, e.usageLogs, rows, i);
  }

  lemma {:induction false} TreeEdgesNaive(st: Store, e: EdgesQ, rows: seq<Row>, i: nat)
    requires ValidStore(st) && PlainEdges(e) && UniqueIds(rows) && i < |rows|
    ensures AccountEdge(st, e.parent, Keys(rows, ParentAccountId))[i]
           == NaiveAccount(st, e.parent, KeyOf(rows[i], ParentAccountId))
    ensures ChildrenEdge(st, e.children, rows)[i] == NaiveChildren(st, e.children, IntOf(rows[i], Id))
    ensures JoinsEdge(st, e.accountGroups, rows)[i] == NaiveJoins(st, e.accountGroups, IntOf(rows[i], Id))
    decreases e, 0
  {
    AccountsNaive(st, e.parent, Keys(rows, ParentAccountId), i);
    ChildrenNaive(st, e.children, rows, i);
    JoinsNaive(st, e.accountGroups, rows, i);
  }

  // A last row turns into the last node.
  lemma LinkedNaive(st: Store, q: AccountQ, batch: seq<Row>, single: seq<Row>, k: int)
    requires var i := LastIndex(Ints(batch, Id), k); LastOf(single) == if i < 0 then None else Some(batch[i])
    ensures Linked(Some(k), Ints(batch, Id), NaiveTrees(st, q.sel.fields, q.edges, batch))
         == LastOf(NaiveTrees(st, q.sel.fields, q.edges, single))
  {
  }

  lemma {:induction false} AccountsNaive(st: Store, q: Option<AccountQ>, keys: seq<Option<int>>, i: nat)
    requires q.Some? ==> PlainAccounts(q.value)
    requires ValidStore(st) && i < |keys|
    ensures AccountEdge(st, q, keys)[i] == NaiveAccount(st, q, keys[i])
    decreases q
  {
    if q.Some? && keys[i].Some? {
      var sel, k := q.value.sel, keys[i].value;
      var batch := Select(st.accounts.rows, sel.Where(InValues(Id, Distinct(keys))));
      SelectUnique(st.accounts.rows, sel.Where(InValues(Id, Distinct(keys))));
      BatchIsNaive(st, sel.fields, q.value.edges, batch);
      LinkIsSelect(st.accounts.rows, sel, keys, k);
      LinkedNaive(st, q.value, batch, Select(st.accounts.rows, sel.Where(Equals(Id, k))), k);
    }
  }

  lemma {:induction false} ChildrenNaive(st: Store, q: Option<AccountQ>, rows: seq<Row>, i: nat)
    requires q.Some? ==> PlainAccounts(q.value)
    requires ValidStore(st) && UniqueIds(rows) && i < |rows|
    ensures ChildrenEdge(st, q, rows)[i] == NaiveChildren(st, q, IntOf(rows[i], Id))
    decreases q
  {
    if q.Some? {
      var sel, ids, e := q.value.sel.WithField(ParentAccountId), Ints(rows, Id), q.value.edges;
      var batch := Select(st.accounts.rows, sel.Where(InValues(ParentAccountId, ids)));
      UniqueOwner(rows, i);
      FanIsSelect(st.accounts.rows, sel, ParentAccountId, ids, ids[i]);
      SelectUnique(st.accounts.rows, sel.Where(InValues(ParentAccountId, ids)));
      BatchIsNaive(st, sel.fields, e, batch);
      PickedNaive(st, sel.fields, e, Is(ids[i]), Ints(batch, ParentAccountId), batch);
    }
  }

  lemma PickedNaive(st: Store, fields: seq<Column>, e: EdgesQ, p: int -> bool, fks: seq<int>, rows: seq<Row>)
    requires |fks| == |rows|
    ensures Picked(p, fks, NaiveTrees(st, fields, e, rows)) == NaiveTrees(st, fields, e, Picked(p, fks, rows))
  {
    PositionsMembers(p, fks);
  }

  lemma PickedNaiveGroups(
    st: Store, fields: seq<Column>, q: AccountGroupQ, p: int -> bool, fks: seq<int>, rows: seq<Row>)
    requires |fks| == |rows|
    ensures Picked(p, fks, NaiveGroupTrees(st, fields, q, rows)) == NaiveGroupTrees(st, fields, q, Picked(p, fks, rows))
  {
    PositionsMembers(p, fks);
  }

  lemma {:induction false} JoinsNaive(st: Store, q: Option<AccountGroupQ>, rows: seq<Row>, i: nat)
    requires q.Some? ==> PlainGroups(q.value)
    requires ValidStore(st) && UniqueIds(rows) && i < |rows|
    ensures JoinsEdge(st, q, rows)[i] == NaiveJoins(st, q, IntOf(rows[i], Id))
    decreases q
  {
    if q.Some? {
      var sel, ids := q.value.sel.WithField(AccountId), Ints(rows, Id);
      var batch := Select(st.accountGroups.rows, sel.Where(InValues(AccountId, ids)));
      UniqueOwner(rows, i);
      FanIsSelect(st.accountGroups.rows, sel, AccountId, ids, ids[i]);
      JoinNodesNaive(st, sel.fields, q.value, batch);
      PickedNaiveGroups(st, sel.fields, q.value, Is(ids[i]), Ints(batch, AccountId), batch);
    }
  }

  // The same for a query on the join table, whose edges are both many-to-one, so
  // that any list of rows will do.
  lemma {:induction false} JoinNodesNaive(st: Store, fields: seq<Column>, q: AccountGroupQ, rows: seq<Row>)
    requires ValidStore(st) && PlainGroups(q)
    ensures LoadedGroups(st, fields, q, rows) == NaiveGroupTrees(st, fields, q, rows)
    decreases q, 0
  {
    forall i | 0 <= i < |rows|
      ensures LoadedGroups(st, fields, q, rows)[i] == NaiveGroupTree(st, fields, q, rows[i])
    {
      AccountsNaive(st, q.account, Somes(Ints(rows, AccountId)), i);
      EntitiesNaive(st.groups, q.group, Somes(Ints(rows, GroupId)), i);
    }
  }

  // One run of a query tree over a valid store returns the naive join of every
  // row that the root query selects.
  lemma RunIsNaive(st: Store, q: AccountQ)
    requires ValidStore(st) && PlainEdges(q.edges)
    ensures AccountTrees(st, q) == NaiveTrees(st, q.sel.fields, q.edges, Select(st.accounts.rows, q.sel))
  {
    SelectUnique(st.accounts.rows, q.sel);
    BatchIsNaive(st, q.sel.fields, q.edges, Select(st.accounts.rows, q.sel));
  }
}
