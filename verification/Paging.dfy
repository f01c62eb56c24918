// Limit and Offset inside With*: the loaders apply them to the whole batch, so a
// paged subquery is not the per-node join. For each of the six edges, any subquery
// that accepts enough rows is joined per node exactly if it is not paged.
module Paging {
  import opened Lists
  import opened Rows
  import opened Entities
  import opened EagerSpec
  import opened GroupJoins
  import opened NaiveJoin
  import opened Loaders
  import opened Agreement
  import opened Routes

  // The number of rows that one page takes or skips; 0 without paging.
  function PageSize(sel: Selection): nat {
    if !sel.FromStart() then sel.offset.value else if sel.Unpaged() then 0 else sel.limit.value
  }

  lemma PageLength<T>(limit: Option<nat>, offset: Option<nat>, s: seq<T>)
    ensures var n := if offset.None? then |s| else if offset.value <= |s| then |s| - offset.value else 0;
            |Page(limit, offset, s)| == if limit.None? || limit.value == 0 || n <= limit.value then n else limit.value
  {
  }

  // Rows with ids of their own that the subquery's predicates accept.
  ghost predicate Offers(sel: Selection, xs: seq<Row>) {
    UniqueIds(xs) && forall r :: r in xs ==> Satisfies(r, sel.predicates)
  }

  // A page of rows that refer to a in column c, and as many that refer to b.
  ghost predicate Crowd(sel: Selection, c: Column, a: int, b: int, xs: seq<Row>, ys: seq<Row>) {
    && a != b && |xs| == |ys| == PageSize(sel) && (forall r :: r in xs + ys ==> Satisfies(r, sel.predicates))
    && (forall r :: r in xs ==> Equals(c, a)(r)) && forall r :: r in ys ==> Equals(c, b)(r)
  }

  // ---- lists ---------------------------------------------------------------------------

  lemma {:induction false} FilterSplit<T>(p: T -> bool, q: T -> bool, s: seq<T>)
    requires forall x :: x in s ==> p(x) != q(x)
    ensures |Filter(p, s)| + |Filter(q, s)| == |s|
  {
    if s != [] {
      FilterSplit(p, q, s[..|s| - 1]);
      assert s[|s| - 1] in s;
    }
  }

  lemma SiftCounts(rows: seq<Row>, sel: Selection)
    ensures multiset(Sift(rows, sel)) == multiset(Filter(Matching(sel.predicates), rows))
    ensures |Sift(rows, sel)| == |Filter(Matching(sel.predicates), rows)|
  {
    var f := Filter(Matching(sel.predicates), rows);
    SortSorted(sel.order, f);
    assert |multiset(Sift(rows, sel))| == |Sift(rows, sel)| && |multiset(f)| == |f|;
  }

  // A query whose predicates accept every row sorts them all.
  lemma SiftAll(rows: seq<Row>, sel: Selection, p: Predicate)
    requires forall r :: r in rows ==> Satisfies(r, sel.predicates) && p(r)
    ensures multiset(Sift(rows, sel.Where(p))) == multiset(rows) && |Sift(rows, sel.Where(p))| == |rows|
  {
    hide Sift;
    SiftCounts(rows, sel.Where(p));
    forall r | r in rows
      ensures Matching(sel.Where(p).predicates)(r)
    {
      SatisfiesSnoc(r, sel.predicates, p);
    }
    FilterAll(Matching(sel.Where(p).predicates), rows);
  }

  // A query that accepts the first part of the table and nothing of the second.
  lemma SiftSome(xs: seq<Row>, ys: seq<Row>, sel: Selection, p: Predicate)
    requires forall r :: r in xs + ys ==> Satisfies(r, sel.predicates)
    requires (forall r :: r in xs ==> p(r)) && forall r :: r in ys ==> !p(r)
    ensures |Sift(xs + ys, sel.Where(p))| == |xs| && |Sift(ys + xs, sel.Where(p))| == |xs|
  {
    hide Sift;
    var m := Matching(sel.Where(p).predicates);
    forall r | r in xs + ys
      ensures m(r) == p(r)
    {
      SatisfiesSnoc(r, sel.predicates, p);
    }
    assert (forall r :: r in xs ==> r in xs + ys) && forall r :: r in ys ==> r in xs + ys;
    FilterAll(m, xs);
    FilterNone(m, ys);
    FilterConcat(m, xs, ys);
    FilterConcat(m, ys, xs);
    SiftCounts(xs + ys, sel.Where(p));
    SiftCounts(ys + xs, sel.Where(p));
  }

  // ---- one-to-many ---------------------------------------------------------------------

  // How many rows of the batch each of the two owners gets, and how many it would get alone.
  lemma CountsDiffer(sel: Selection, c: Column, a: int, b: int, xs: seq<Row>, ys: seq<Row>)
    requires Crowd(sel, c, a, b, xs, ys) && !sel.Unpaged()
    ensures var batch := Select(xs + ys, sel.Where(InValues(c, [a, b])));
            || |Filter(Equals(c, a), batch)| != |Select(xs + ys, sel.Where(Equals(c, a)))|
            || |Filter(Equals(c, b), batch)| != |Select(xs + ys, sel.Where(Equals(c, b)))|
  {
    hide Sift, Page, UniqueIds;
    var rows, both := xs + ys, InValues(c, [a, b]);
    SiftAll(rows, sel, both);
    SiftSome(xs, ys, sel, Equals(c, a));
    SiftSome(ys, xs, sel, Equals(c, b));
    PageLength(sel.limit, sel.offset, Sift(rows, sel.Where(both)));
    PageLength(sel.limit, sel.offset, Sift(rows, sel.Where(Equals(c, a))));
    PageLength(sel.limit, sel.offset, Sift(rows, sel.Where(Equals(c, b))));
    var batch := Select(rows, sel.Where(both));
    SelectMembers(rows, sel.Where(both));
    assert forall r :: r in batch ==> Equals(c, a)(r) != Equals(c, b)(r);
    FilterSplit(Equals(c, a), Equals(c, b), batch);
  }

  // What a node gets of a batch is what refers to it.
  lemma FanCounts<T>(ids: seq<int>, i: nat, c: Column, batch: seq<Row>, ts: seq<T>)
    requires i < |ids| && LastIndex(ids, ids[i]) == i && |ts| == |batch|
    requires forall r :: r in batch ==> InValues(c, ids)(r)
    ensures |Fan(ids, i, Ints(batch, c), ts)| == |Filter(Equals(c, ids[i]), batch)|
  {
    forall j | 0 <= j < |batch|
      ensures Equals(c, ids[i])(batch[j]) == Is(ids[i])(Ints(batch, c)[j])
    {
      assert batch[j] in batch;
    }
    PositionsMembers(Is(ids[i]), Ints(batch, c));
    PositionsFilter(Is(ids[i]), batch, Ints(batch, c), Equals(c, ids[i]));
  }

  function AccountRow(id: int): Row {
    map[Id := IntCell(id)]
  }

  // Two account rows to load edges for.
  function TwoRows(a: int, b: int): seq<Row> {
    [AccountRow(a), AccountRow(b)]
  }

  lemma TwoUnique(a: int, b: int)
    requires a != b
    ensures UniqueIds(TwoRows(a, b)) && Ints(TwoRows(a, b), Id) == [a, b]
    ensures LastIndex([a, b], a) == 0 && LastIndex([a, b], b) == 1
  {
    var rows := TwoRows(a, b);
    assert AccountRow(a)[Id] != AccountRow(b)[Id];
    assert forall r :: r in rows ==> r == AccountRow(a) || r == AccountRow(b);
    assert multiset(rows) == multiset{AccountRow(a), AccountRow(b)};
  }

  // A store with the key columns of every edge.
  function Stocked(accounts: seq<Row>, groups: seq<Row>, logs: seq<Row>, joins: seq<Row>): Store {
    Store(Table([Id, ProxyId, ParentAccountId], accounts), Table([Id], groups), Table([Id], []),
          Table([Id, AccountId], logs), Table([AccountId, GroupId], joins))
  }

  lemma StockedValid(accounts: seq<Row>, groups: seq<Row>, logs: seq<Row>, joins: seq<Row>)
    requires UniqueIds(accounts) && UniqueIds(groups) && forall r :: r in accounts ==> TypedRow(r)
    ensures ValidStore(Stocked(accounts, groups, logs, joins))
  {
    hide UniqueIds, TypedRow, Known;
    KeyColumnsKnown();
    assert forall r :: r in accounts ==> CellOf(r, Id).IntCell? by {
      IdsPresent(accounts);
    }
  }

  lemma IdsPresent(rows: seq<Row>)
    requires UniqueIds(rows)
    ensures forall r :: r in rows ==> CellOf(r, Id).IntCell?
  {
  }

  lemma NothingUnique()
    ensures UniqueIds([])
  {
  }

  // ---- usage logs ------------------------------------------------------------------------

  // Over every store, each account gets the usage logs it would get on its own.
  ghost predicate LogsPerAccount(q: EntityQ) {
    forall st, rows, i: nat :: ValidStore(st) && UniqueIds(st.usageLogs.rows) && UniqueIds(rows) && i < |rows| ==>
      LogsEdge(st, Some(q), rows)[i] == NaiveLogs(st, Some(q), IntOf(rows[i], Id))
  }

  lemma LogsDiffer(q: EntityQ, a: int, b: int, xs: seq<Row>, ys: seq<Row>)
    requires Crowd(q.sel, AccountId, a, b, xs, ys) && !q.sel.Unpaged()
    ensures var st := Stocked([], [], xs + ys, []);
            || LogsEdge(st, Some(q), TwoRows(a, b))[0] != NaiveLogs(st, Some(q), a)
            || LogsEdge(st, Some(q), TwoRows(a, b))[1] != NaiveLogs(st, Some(q), b)
  {
    hide Select, Fan, EntityColumns, Filter, Crowd;
    var sel := q.sel.WithField(AccountId);
    Apart(q.sel, AccountId, a, b, xs, ys);
    TwoUnique(a, b);
    WiderCrowd(q.sel, sel, AccountId, a, b, xs, ys);
    CountsDiffer(sel, AccountId, a, b, xs, ys);
    var batch := Select(xs + ys, sel.Where(InValues(AccountId, [a, b])));
    SelectSatisfies(xs + ys, sel, InValues(AccountId, [a, b]));
    var decoded := DecodeAll(EntityColumns([Id, AccountId], sel.fields), batch);
    FanCounts([a, b], 0, AccountId, batch, decoded);
    FanCounts([a, b], 1, AccountId, batch, decoded);
  }

  lemma WiderCrowd(sel: Selection, sel': Selection, c: Column, a: int, b: int, xs: seq<Row>, ys: seq<Row>)
    requires Crowd(sel, c, a, b, xs, ys)
    requires sel'.predicates == sel.predicates && sel'.limit == sel.limit && sel'.offset == sel.offset
    ensures Crowd(sel', c, a, b, xs, ys) && sel'.Unpaged() == sel.Unpaged()
  {
    hide UniqueIds;
  }

  lemma LogsIffUnpaged(q: EntityQ, a: int, b: int, xs: seq<Row>, ys: seq<Row>)
    requires Crowd(q.sel, AccountId, a, b, xs, ys) && UniqueIds(xs + ys)
    ensures LogsPerAccount(q) <==> q.sel.Unpaged()
  {
    hide LogsEdge, NaiveLogs, ValidStore, UniqueIds, Crowd;
    if q.sel.Unpaged() {
      forall st, rows, i: nat | ValidStore(st) && UniqueIds(st.usageLogs.rows) && UniqueIds(rows) && i < |rows|
        ensures LogsEdge(st, Some(q), rows)[i] == NaiveLogs(st, Some(q), IntOf(rows[i], Id))
      {
        LogsNaive(st, Some(q), rows, i);
      }
    } else {
      LogsDiffer(q, a, b, xs, ys);
      NothingUnique();
      StockedValid([], [], xs + ys, []);
      Apart(q.sel, AccountId, a, b, xs, ys);
      TwoUnique(a, b);
      assert Ints(TwoRows(a, b), Id)[0] == a && Ints(TwoRows(a, b), Id)[1] == b;
    }
  }

  lemma Apart(sel: Selection, c: Column, a: int, b: int, xs: seq<Row>, ys: seq<Row>)
    requires Crowd(sel, c, a, b, xs, ys)
    ensures a != b
  {
  }

  // ---- children --------------------------------------------------------------------------

  ghost predicate ChildrenPerAccount(q: AccountQ) {
    forall st, rows, i: nat :: ValidStore(st) && UniqueIds(rows) && i < |rows| ==>
      ChildrenEdge(st, Some(q), rows)[i] == NaiveChildren(st, Some(q), IntOf(rows[i], Id))
  }

  lemma ChildrenDiffer(q: AccountQ, a: int, b: int, xs: seq<Row>, ys: seq<Row>)
    requires Crowd(q.sel, ParentAccountId, a, b, xs, ys) && !q.sel.Unpaged()
    ensures var st := Stocked(xs + ys, [], [], []);
            || ChildrenEdge(st, Some(q), TwoRows(a, b))[0] != NaiveChildren(st, Some(q), a)
            || ChildrenEdge(st, Some(q), TwoRows(a, b))[1] != NaiveChildren(st, Some(q), b)
  {
    hide Select, Fan, Filter, Crowd, LoadedNode, NaiveTree;
    var sel := q.sel.WithField(ParentAccountId);
    Apart(q.sel, ParentAccountId, a, b, xs, ys);
    TwoUnique(a, b);
    WiderCrowd(q.sel, sel, ParentAccountId, a, b, xs, ys);
    CountsDiffer(sel, ParentAccountId, a, b, xs, ys);
    var batch := Select(xs + ys, sel.Where(InValues(ParentAccountId, [a, b])));
    SelectSatisfies(xs + ys, sel, InValues(ParentAccountId, [a, b]));
    var loaded := Loaded(Stocked(xs + ys, [], [], []), sel.fields, q.edges, batch);
    FanCounts([a, b], 0, ParentAccountId, batch, loaded);
    FanCounts([a, b], 1, ParentAccountId, batch, loaded);
  }

  lemma ChildrenIffUnpaged(q: AccountQ, a: int, b: int, xs: seq<Row>, ys: seq<Row>)
    requires PlainEdges(q.edges)
    requires Crowd(q.sel, ParentAccountId, a, b, xs, ys) && UniqueIds(xs + ys)
    requires forall r :: r in xs + ys ==> TypedRow(r)
    ensures ChildrenPerAccount(q) <==> q.sel.Unpaged()
  {
    hide ChildrenEdge, NaiveChildren, ValidStore, UniqueIds, Crowd, PlainEdges;
    if q.sel.Unpaged() {
      forall st, rows, i: nat | ValidStore(st) && UniqueIds(rows) && i < |rows|
        ensures ChildrenEdge(st, Some(q), rows)[i] == NaiveChildren(st, Some(q), IntOf(rows[i], Id))
      {
        assert PlainAccounts(q);
        ChildrenNaive(st, Some(q), rows, i);
      }
    } else {
      ChildrenDiffer(q, a, b, xs, ys);
      Apart(q.sel, ParentAccountId, a, b, xs, ys);
      NothingUnique();
      StockedValid(xs + ys, [], [], []);
      TwoUnique(a, b);
      assert Ints(TwoRows(a, b), Id)[0] == a && Ints(TwoRows(a, b), Id)[1] == b;
    }
  }

  // ---- join rows -------------------------------------------------------------------------

  ghost predicate JoinsPerAccount(q: AccountGroupQ) {
    forall st, rows, i: nat :: ValidStore(st) && UniqueIds(rows) && i < |rows| ==>
      JoinsEdge(st, Some(q), rows)[i] == NaiveJoins(st, Some(q), IntOf(rows[i], Id))
  }

  lemma JoinsDiffer(q: AccountGroupQ, a: int, b: int, xs: seq<Row>, ys: seq<Row>)
    requires Crowd(q.sel, AccountId, a, b, xs, ys) && !q.sel.Unpaged()
    ensures var st := Stocked([], [], [], xs + ys);
            || JoinsEdge(st, Some(q), TwoRows(a, b))[0] != NaiveJoins(st, Some(q), a)
            || JoinsEdge(st, Some(q), TwoRows(a, b))[1] != NaiveJoins(st, Some(q), b)
  {
    hide Select, Fan, Filter, Crowd, LoadedGroup, NaiveGroupTree;
    var sel := q.sel.WithField(AccountId);
    Apart(q.sel, AccountId, a, b, xs, ys);
    TwoUnique(a, b);
    WiderCrowd(q.sel, sel, AccountId, a, b, xs, ys);
    CountsDiffer(sel, AccountId, a, b, xs, ys);
    var batch := Select(xs + ys, sel.Where(InValues(AccountId, [a, b])));
    SelectSatisfies(xs + ys, sel, InValues(AccountId, [a, b]));
    var loaded := LoadedGroups(Stocked([], [], [], xs + ys), sel.fields, q, batch);
    FanCounts([a, b], 0, AccountId, batch, loaded);
    FanCounts([a, b], 1, AccountId, batch, loaded);
  }

  lemma JoinsIffUnpaged(q: AccountGroupQ, a: int, b: int, xs: seq<Row>, ys: seq<Row>)
    requires q.account.Some? ==> PlainAccounts(q.account.value)
    requires q.group.Some? ==> q.group.value.sel.Unpaged()
    requires Crowd(q.sel, AccountId, a, b, xs, ys)
    ensures JoinsPerAccount(q) <==> q.sel.Unpaged()
  {
    hide JoinsEdge, NaiveJoins, ValidStore, UniqueIds, Crowd, PlainAccounts;
    if q.sel.Unpaged() {
      forall st, rows, i: nat | ValidStore(st) && UniqueIds(rows) && i < |rows|
        ensures JoinsEdge(st, Some(q), rows)[i] == NaiveJoins(st, Some(q), IntOf(rows[i], Id))
      {
        assert PlainGroups(q);
        JoinsNaive(st, Some(q), rows, i);
      }
    } else {
      JoinsDiffer(q, a, b, xs, ys);
      Apart(q.sel, AccountId, a, b, xs, ys);
      NothingUnique();
      StockedValid([], [], [], xs + ys);
      TwoUnique(a, b);
      assert Ints(TwoRows(a, b), Id)[0] == a && Ints(TwoRows(a, b), Id)[1] == b;
    }
  }

  // ---- many-to-one -------------------------------------------------------------------------

  function KeysFor(xs: seq<Row>): seq<Option<int>> {
    Somes(Ints(xs, Id))
  }

  // One row more than a page: the last one in the order of the query.
  lemma LastRow(sel: Selection, xs: seq<Row>) returns (i: nat, k: int)
    requires Offers(sel, xs) && |xs| == PageSize(sel) + 1 && !sel.Unpaged()
    ensures i < |xs| && KeysFor(xs)[i] == Some(k)
    ensures LastIndex(Ints(Select(xs, sel.Where(InValues(Id, Distinct(KeysFor(xs))))), Id), k) >= 0
            <==> Select(xs, sel.Where(Equals(Id, k))) == []
  {
    hide Sift, Page, UniqueIds;
    var all := InValues(Id, Distinct(KeysFor(xs)));
    AllRequested(xs);
    SiftAll(xs, sel, all);
    var s := Sift(xs, sel.Where(all));
    UniqueSubset(xs, s);
    var last := s[|s| - 1];
    assert last in multiset(s);
    i :| 0 <= i < |xs| && xs[i] == last;
    k := IntOf(last, Id);
    AloneIsLast(xs, sel, all, s, k);
    PageOfLast(sel, s, k);
  }

  lemma AllRequested(xs: seq<Row>)
    requires UniqueIds(xs)
    ensures forall r :: r in xs ==> InValues(Id, Distinct(KeysFor(xs)))(r)
  {
    var keys := KeysFor(xs);
    DistinctMembers(keys);
    forall r | r in xs
      ensures InValues(Id, Distinct(keys))(r)
    {
      var i :| 0 <= i < |xs| && xs[i] == r;
      assert keys[i] == Some(IntOf(r, Id)) && keys[i] in keys;
    }
  }

  // The last row has its id to itself.
  lemma OthersDiffer(t: seq<Row>, last: Row)
    requires UniqueIds(t + [last])
    ensures forall r :: r in t ==> !Equals(Id, IntOf(last, Id))(r)
    ensures Equals(Id, IntOf(last, Id))(last)
  {
    var s := t + [last];
    assert s[|t|] in s;
    forall r | r in t
      ensures !Equals(Id, IntOf(last, Id))(r)
    {
      var j :| 0 <= j < |t| && t[j] == r;
      assert s[j] == r;
      UniqueIndices(s, j, |t|);
    }
  }

  // The query for that id alone returns the last row and nothing else, before paging.
  lemma AloneIsLast(xs: seq<Row>, sel: Selection, all: Predicate, s: seq<Row>, k: int)
    requires s == Sift(xs, sel.Where(all)) && s != [] && UniqueIds(s) && k == IntOf(s[|s| - 1], Id)
    requires forall r :: r in xs ==> all(r)
    ensures Sift(xs, sel.Where(Equals(Id, k))) == [s[|s| - 1]]
  {
    hide Sift, UniqueIds;
    var n := |s| - 1;
    var unpaged := sel.(limit := None, offset := None);
    assert Select(xs, unpaged.Where(all)) == s by {
      SameSift(xs, unpaged.Where(all), sel.Where(all));
    }
    Batching(xs, unpaged, all, Equals(Id, k));
    SameSift(xs, unpaged.Where(Equals(Id, k)), sel.Where(Equals(Id, k)));
    assert s == s[..n] + [s[n]];
    OthersDiffer(s[..n], s[n]);
    FilterNone(Equals(Id, k), s[..n]);
    FilterSnoc(Equals(Id, k), s[..n], s[n]);
  }

  lemma SameSift(rows: seq<Row>, sel: Selection, sel': Selection)
    requires sel.predicates == sel'.predicates && sel.order == sel'.order
    ensures Sift(rows, sel) == Sift(rows, sel')
  {
  }

  // A page cuts the last row off if it is limited, and holds nothing else if it is offset.
  lemma PageOfLast(sel: Selection, s: seq<Row>, k: int)
    requires |s| == PageSize(sel) + 1 && !sel.Unpaged() && UniqueIds(s) && k == IntOf(s[|s| - 1], Id)
    ensures LastIndex(Ints(Page(sel.limit, sel.offset, s), Id), k) >= 0
           <==> Page(sel.limit, sel.offset, [s[|s| - 1]]) == []
  {
    hide UniqueIds;
    var n := |s| - 1;
    var page := Page(sel.limit, sel.offset, s);
    if sel.FromStart() {
      assert s[0..] == s && [s[n]][0..] == [s[n]];
      assert page == s[..n];
      forall j | 0 <= j < n
        ensures Ints(page, Id)[j] != k
      {
        UniqueIndices(s, j, n);
      }
    } else {
      assert s[n..] == [s[n]] && page == [s[n]];
      assert Ints(page, Id)[0] == k;
    }
  }

  // Over every table with a primary key, each key gets the row it would get on its own.
  ghost predicate EntitiesPerKey(q: EntityQ) {
    forall t: Table, keys, i: nat :: UniqueIds(t.rows) && Id in t.columns && i < |keys| ==>
      EntityEdge(t, Some(q), keys)[i] == NaiveEntity(t, Some(q), keys[i])
  }

  // A key that gets nothing, or that gets a row, unlike on its own.
  lemma EntitiesDiffer(q: EntityQ, xs: seq<Row>) returns (i: nat)
    requires Offers(q.sel, xs) && |xs| == PageSize(q.sel) + 1 && !q.sel.Unpaged()
    ensures i < |xs|
    ensures EntityEdge(Table([Id], xs), Some(q), KeysFor(xs))[i]
           != NaiveEntity(Table([Id], xs), Some(q), KeysFor(xs)[i])
  {
    hide UniqueIds, Select, Offers, Distinct, EntityColumns, InValues;
    var k;
    i, k := LastRow(q.sel, xs);
  }

  // loadProxy, and loadGroup of a join row.
  lemma EntitiesIffUnpaged(q: EntityQ, xs: seq<Row>)
    requires Offers(q.sel, xs) && |xs| == PageSize(q.sel) + 1
    ensures EntitiesPerKey(q) <==> q.sel.Unpaged()
  {
    hide UniqueIds, Offers, EntityEdge, NaiveEntity;
    if q.sel.Unpaged() {
      forall t: Table, keys, i: nat | UniqueIds(t.rows) && Id in t.columns && i < |keys|
        ensures EntityEdge(t, Some(q), keys)[i] == NaiveEntity(t, Some(q), keys[i])
      {
        EntitiesNaive(t, Some(q), keys, i);
      }
    } else {
      var t := Table([Id], xs);
      var i := EntitiesDiffer(q, xs);
      OffersUnique(q.sel, xs);
      assert UniqueIds(t.rows) && Id in t.columns && i < |KeysFor(xs)|;
    }
  }

  lemma OffersUnique(sel: Selection, xs: seq<Row>)
    requires Offers(sel, xs)
    ensures UniqueIds(xs)
  {
  }

  ghost predicate AccountsPerKey(q: AccountQ) {
    forall st, keys, i: nat :: ValidStore(st) && i < |keys| ==>
      AccountEdge(st, Some(q), keys)[i] == NaiveAccount(st, Some(q), keys[i])
  }

  // loadParent, and loadAccount of a join row.
  lemma AccountsIffUnpaged(q: AccountQ, xs: seq<Row>)
    requires PlainEdges(q.edges)
    requires Offers(q.sel, xs) && |xs| == PageSize(q.sel) + 1 && forall r :: r in xs ==> TypedRow(r)
    ensures AccountsPerKey(q) <==> q.sel.Unpaged()
  {
    hide UniqueIds, Select, Offers, LoadedNode, NaiveTree, PlainEdges, ValidStore;
    if q.sel.Unpaged() {
      forall st, keys, i: nat | ValidStore(st) && i < |keys|
        ensures AccountEdge(st, Some(q), keys)[i] == NaiveAccount(st, Some(q), keys[i])
      {
        assert PlainAccounts(q);
        AccountsNaive(st, Some(q), keys, i);
      }
    } else {
      var st := Stocked(xs, [], [], []);
      var i, k := LastRow(q.sel, xs);
      OffersUnique(q.sel, xs);
      NothingUnique();
      StockedValid(xs, [], [], []);
      assert AccountEdge(st, Some(q), KeysFor(xs))[i] != NaiveAccount(st, Some(q), KeysFor(xs)[i]);
    }
  }

  // ---- groups --------------------------------------------------------------------------------

  ghost predicate GroupsPerAccount(q: EntityQ) {
    forall st, rows, i: nat :: ValidStore(st) && UniqueIds(rows) && i < |rows| ==>
      GroupsEdge(st, Some(q), rows)[i] == NaiveGroups(st, Some(q), IntOf(rows[i], Id))
  }

  // Account a is in every one of the groups.
  function LinksTo(a: int, gs: seq<Row>): seq<Row> {
    seq(|gs|, i requires 0 <= i < |gs| => map[AccountId := IntCell(a), GroupId := IntCell(IntOf(gs[i], Id))])
  }

  // So are accounts 1 and 2.
  function BothLinked(gs: seq<Row>): seq<Row> {
    LinksTo(1, gs) + LinksTo(2, gs)
  }

  lemma {:induction false} LinksConcat(r: seq<Row>, s: seq<Row>, g: Row, ids: seq<int>)
    ensures LinksOf(r + s, g, ids) == LinksOf(r, g, ids) + LinksOf(s, g, ids)
  {
    if s == [] {
      assert r + s == r;
    } else {
      assert (r + s)[..|r + s| - 1] == r + s[..|s| - 1];
      LinksConcat(r, s[..|s| - 1], g, ids);
    }
  }

  lemma {:induction false} LinkedNowhere(a: int, gs: seq<Row>, g: Row, ids: seq<int>)
    requires IntOf(g, Id) !in Ints(gs, Id)
    ensures LinksOf(LinksTo(a, gs), g, ids) == []
  {
    if gs != [] {
      var n := |gs| - 1;
      assert LinksTo(a, gs)[..n] == LinksTo(a, gs[..n]);
      assert forall j :: 0 <= j < n ==> Ints(gs[..n], Id)[j] == Ints(gs, Id)[j];
      LinkedNowhere(a, gs[..n], g, ids);
      assert Ints(gs, Id)[n] != IntOf(g, Id);
    }
  }

  lemma {:induction false} LinkedOnce(a: int, gs: seq<Row>, g: Row, ids: seq<int>)
    requires UniqueIds(gs) && g in gs && a in ids
    ensures LinksOf(LinksTo(a, gs), g, ids) == [a]
  {
    var n := |gs| - 1;
    assert gs == gs[..n] + [gs[n]];
    assert LinksTo(a, gs)[..n] == LinksTo(a, gs[..n]);
    UniqueSubset(gs, gs[..n]);
    if g == gs[n] {
      NewGroup(gs[..n], g, gs[..n]);
      LinkedNowhere(a, gs[..n], g, ids);
    } else {
      LinkedOnce(a, gs[..n], g, ids);
      assert IntOf(g, Id) != IntOf(gs[n], Id);
    }
  }

  lemma BothLinks(gs: seq<Row>, g: Row)
    requires UniqueIds(gs) && g in gs
    ensures LinksOf(BothLinked(gs), g, [1, 2]) == [1, 2]
    ensures LinkedTo(BothLinked(gs), 1)(g) && LinkedTo(BothLinked(gs), 2)(g)
  {
    hide UniqueIds, LinkedTo;
    LinkedOnce(1, gs, g, [1, 2]);
    LinkedOnce(2, gs, g, [1, 2]);
    LinksConcat(LinksTo(1, gs), LinksTo(2, gs), g, [1, 2]);
    LinksMembers(BothLinked(gs), g, [1, 2], 1);
    LinksMembers(BothLinked(gs), g, [1, 2], 2);
  }

  // Every group stands twice in the list, which ends with the last group of account 2.
  ghost predicate ListsBoth(rows: seq<(int, Row)>, s: seq<Row>) {
    && |rows| == 2 * |s|
    && (forall j :: 0 <= j < |rows| ==> (rows[j].0 == 1 || rows[j].0 == 2) && rows[j].1 in s)
    && (s != [] ==> forall j :: 0 <= j < |rows| - 1 ==> rows[j].0 == 1 || rows[j].1 != s[|s| - 1])
  }

  lemma ListsMore(rows: seq<(int, Row)>, t: seq<Row>, g: Row)
    requires ListsBoth(rows, t) && g !in t
    ensures ListsBoth(rows + [(1, g), (2, g)], t + [g])
  {
  }

  lemma {:induction false} JoinOfBoth(gs: seq<Row>, s: seq<Row>)
    requires UniqueIds(gs) && UniqueIds(s) && forall g :: g in s ==> g in gs
    ensures ListsBoth(JoinRows(BothLinked(gs), s, [1, 2]), s)
  {
    hide UniqueIds, LinksOf, BothLinked, ListsBoth;
    if s == [] {
      ListsNothing();
    } else {
      var n := |s| - 1;
      var t, g := s[..n], s[n];
      assert s == t + [g];
      SlicePart(s, n);
      UniqueSubset(s, t);
      JoinOfBoth(gs, t);
      BothLinks(gs, g);
      assert JoinRows(BothLinked(gs), s, [1, 2]) == JoinRows(BothLinked(gs), t, [1, 2]) + [(1, g), (2, g)];
      LastIsNew(t, g);
      ListsMore(JoinRows(BothLinked(gs), t, [1, 2]), t, g);
    }
  }

  lemma ListsNothing()
    ensures ListsBoth([], [])
  {
  }

  lemma LastIsNew(t: seq<Row>, g: Row)
    requires UniqueIds(t + [g])
    ensures g !in t
  {
    OthersDiffer(t, g);
  }

  // The groups that account 2 is linked to in the page of the join: not the last one,
  // if the page is limited; the page is not empty, if it is offset.
  lemma PageOfJoin(sel: Selection, gs: seq<Row>, s: seq<Row>)
    requires UniqueIds(gs) && UniqueIds(s) && (forall g :: g in s ==> g in gs)
    requires |s| == PageSize(sel) && !sel.Unpaged()
    ensures var page := Page(sel.limit, sel.offset, JoinRows(BothLinked(gs), s, [1, 2]));
            && (sel.FromStart() ==> forall j :: 0 <= j < |page| && page[j].0 == 2 ==>
                  page[j].1 in s && page[j].1 != s[|s| - 1])
            && (!sel.FromStart() ==> page != [] && (page[0].0 == 1 || page[0].0 == 2))
  {
    hide UniqueIds, JoinRows, BothLinked;
    JoinOfBoth(gs, s);
    var rows := JoinRows(BothLinked(gs), s, [1, 2]);
    if sel.FromStart() {
      assert rows[0..] == rows;
      assert Page(sel.limit, sel.offset, rows) == rows[..|s|];
    }
  }

  // The result of the join for the two accounts.
  lemma JoinedPage(q: EntityQ, gs: seq<Row>)
    requires q.joins == []
    ensures Pairs(JoinResult(Stocked([], gs, [], BothLinked(gs)), q, [1, 2]))
         == Page(q.sel.limit, q.sel.offset, JoinRows(BothLinked(gs), Sift(gs, q.sel), [1, 2]))
  {
    FreshResult(Stocked([], gs, [], BothLinked(gs)), q, [1, 2]);
  }

  // An account has group g in its edge exactly if some row of the page says so.
  lemma GatheredIff(columns: seq<Column>, pairs: seq<(int, Row)>, a: int, g: int)
    requires Id in columns
    ensures var gids := Ints(Ins(pairs), Id);
            ViaGroups(Gather(Outs(pairs), gids, DecodeAll(columns, Ins(pairs)), a), g)
            <==> Connected(Outs(pairs), gids, a, g)
  {
    hide Gather, Introduces;
    var outs, gids, xs := Outs(pairs), Ints(Ins(pairs), Id), DecodeAll(columns, Ins(pairs));
    forall p | 0 <= p < |xs|
      ensures IntOf(xs[p], Id) == gids[p]
    {
      DecodeKey(columns, Ins(pairs)[p], Id);
    }
    var ps := GatherExactly(outs, gids, xs, a);
    if ViaGroups(At(xs, ps), g) {
      var j :| 0 <= j < |ps| && IntOf(xs[ps[j]], Id) == g;
      assert ps[j] in ps;
      IntroducesConnects(outs, gids, a, ps[j]);
    }
    if Connected(outs, gids, a, g) {
      var p := ConnectedIntroduced(outs, gids, a, g);
      var j :| 0 <= j < |ps| && ps[j] == p;
      IntroducesConnects(outs, gids, a, p);
      assert IntOf(At(xs, ps)[j], Id) == g;
    }
  }

  lemma IntroducesConnects(outs: seq<int>, gids: seq<int>, a: int, p: nat)
    requires |outs| == |gids| && Introduces(outs, gids, a, p)
    ensures p < |gids| && Connected(outs, gids, a, gids[p])
  {
  }

  // What the batch and the query for one account alone return, for account i + 1.
  lemma BothEdges(q: EntityQ, gs: seq<Row>, i: nat)
    requires q.joins == [] && i < 2 && UniqueIds(gs)
    ensures var st := Stocked([], gs, [], BothLinked(gs));
            var pairs := Page(q.sel.limit, q.sel.offset, JoinRows(BothLinked(gs), Sift(gs, q.sel), [1, 2]));
            var columns := EntityColumns([Id], q.sel.fields);
            && (GroupsEdge(st, Some(q), TwoRows(1, 2))[i]
                == Gather(Outs(pairs), Ints(Ins(pairs), Id), DecodeAll(columns, Ins(pairs)), i + 1))
            && NaiveGroups(st, Some(q), i + 1) == DecodeAll(columns, Page(q.sel.limit, q.sel.offset, Sift(gs, q.sel)))
  {
    hide UniqueIds, Page, JoinRows, JoinResult, Sift, Gather, BothLinked, EntityColumns, DecodeAll, LinkedTo;
    TwoUnique(1, 2);
    JoinedPage(q, gs);
    var p := LinkedTo(BothLinked(gs), i + 1);
    SiftWhere(gs, q.sel, p);
    AllLinked(q.sel, gs, i);
    FilterAll(p, Sift(gs, q.sel));
  }

  lemma AllLinked(sel: Selection, gs: seq<Row>, i: nat)
    requires i < 2 && UniqueIds(gs)
    ensures forall g :: g in Sift(gs, sel) ==> g in gs && LinkedTo(BothLinked(gs), i + 1)(g)
  {
    hide UniqueIds, Sift, LinkedTo, BothLinked;
    SiftCounts(gs, sel);
    FilterMembers(Matching(sel.predicates), gs);
    forall g | g in Sift(gs, sel)
      ensures g in gs && LinkedTo(BothLinked(gs), i + 1)(g)
    {
      assert g in multiset(Sift(gs, sel));
      assert g in Filter(Matching(sel.predicates), gs);
      BothLinks(gs, g);
    }
  }

  lemma SiftEverything(gs: seq<Row>, sel: Selection)
    requires Offers(sel, gs)
    ensures UniqueIds(Sift(gs, sel)) && |Sift(gs, sel)| == |gs| && forall g :: g in Sift(gs, sel) ==> g in gs
  {
    hide UniqueIds, Sift;
    SiftCounts(gs, sel);
    FilterAll(Matching(sel.predicates), gs);
    SelectUnique(gs, sel);
    assert forall g :: g in Sift(gs, sel) ==> g in multiset(Sift(gs, sel));
  }

  lemma GroupsDiffer(q: EntityQ, gs: seq<Row>)
    requires q.joins == [] && Offers(q.sel, gs) && |gs| == PageSize(q.sel) && !q.sel.Unpaged()
    ensures var st := Stocked([], gs, [], BothLinked(gs));
            || GroupsEdge(st, Some(q), TwoRows(1, 2))[0] != NaiveGroups(st, Some(q), 1)
            || GroupsEdge(st, Some(q), TwoRows(1, 2))[1] != NaiveGroups(st, Some(q), 2)
  {
    hide UniqueIds, JoinRows, Sift, Gather, BothLinked, EntityColumns, GroupsEdge, NaiveGroups, Page, Connected;
    hide ViaGroups;
    var s := Sift(gs, q.sel);
    SiftEverything(gs, q.sel);
    PageOfJoin(q.sel, gs, s);
    BothEdges(q, gs, 0);
    BothEdges(q, gs, 1);
    var page := Page(q.sel.limit, q.sel.offset, JoinRows(BothLinked(gs), s, [1, 2]));
    var columns := EntityColumns([Id], q.sel.fields);
    IdSelected([Id], q.sel.fields);
    if q.sel.FromStart() {
      LimitedGroups(q.sel, columns, s, page);
    } else {
      OffsetGroups(q.sel, columns, s, page);
    }
  }

  // A limited page lacks the last group of account 2, which gets all of them on its own.
  lemma LimitedGroups(sel: Selection, columns: seq<Column>, s: seq<Row>, page: seq<(int, Row)>)
    requires Id in columns && UniqueIds(s) && |s| == PageSize(sel) && !sel.Unpaged() && sel.FromStart()
    requires forall j :: 0 <= j < |page| && page[j].0 == 2 ==> page[j].1 in s && page[j].1 != s[|s| - 1]
    ensures Gather(Outs(page), Ints(Ins(page), Id), DecodeAll(columns, Ins(page)), 2)
         != DecodeAll(columns, Page(sel.limit, sel.offset, s))
  {
    hide Gather;
    var n := |s| - 1;
    var g := IntOf(s[n], Id);
    assert s[0..] == s && Page(sel.limit, sel.offset, s) == s;
    assert s[n] in s;
    assert !Connected(Outs(page), Ints(Ins(page), Id), 2, g);
    GatheredIff(columns, page, 2, g);
    DecodedIds(columns, s, g);
  }

  // An offset page has a row for some account, which gets nothing on its own.
  lemma OffsetGroups(sel: Selection, columns: seq<Column>, s: seq<Row>, page: seq<(int, Row)>)
    requires Id in columns && |s| == PageSize(sel) && !sel.FromStart()
    requires page != [] && (page[0].0 == 1 || page[0].0 == 2)
    ensures DecodeAll(columns, Page(sel.limit, sel.offset, s)) == []
    ensures Gather(Outs(page), Ints(Ins(page), Id), DecodeAll(columns, Ins(page)), page[0].0) != []
  {
    hide Gather;
    var g := IntOf(page[0].1, Id);
    assert Outs(page)[0] == page[0].0 && Ints(Ins(page), Id)[0] == g;
    GatheredIff(columns, page, page[0].0, g);
  }

  // For a groups query that accepts a page of groups and has not run before.
  lemma GroupsIffUnpaged(q: EntityQ, gs: seq<Row>)
    requires q.joins == [] && Offers(q.sel, gs) && |gs| == PageSize(q.sel)
    ensures GroupsPerAccount(q) <==> q.sel.Unpaged()
  {
    hide UniqueIds, GroupsEdge, NaiveGroups, ValidStore, Offers, BothLinked;
    if q.sel.Unpaged() {
      forall st, rows, i: nat | ValidStore(st) && UniqueIds(rows) && i < |rows|
        ensures GroupsEdge(st, Some(q), rows)[i] == NaiveGroups(st, Some(q), IntOf(rows[i], Id))
      {
        GroupsUnique(st);
        GroupsNaive(st, Some(q), rows, i);
      }
    } else {
      GroupsDiffer(q, gs);
      OffersUnique(q.sel, gs);
      NothingUnique();
      StockedValid([], gs, [], BothLinked(gs));
      TwoUnique(1, 2);
      assert Ints(TwoRows(1, 2), Id)[0] == 1 && Ints(TwoRows(1, 2), Id)[1] == 2;
    }
  }

  lemma GroupsUnique(st: Store)
    requires ValidStore(st)
    ensures UniqueIds(st.groups.rows)
  {
  }
}
