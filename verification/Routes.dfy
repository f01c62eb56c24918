// Edges that must tell the same story: the two routes from an account to its
// groups, a parent and its children, and the one-to-many edges as a whole.
module Routes {
  import opened Lists
  import opened Rows
  import opened EagerSpec
  import opened NaiveJoin
  import opened Distribution
  import opened Loaders
  import opened EagerLoading
  import opened Agreement

  predicate Unfiltered(sel: Selection) {
    sel.predicates == [] && sel.Unpaged()
  }

  // ---- two routes through the join table -------------------------------------------

  // group_id is a required column of the join table.
  ghost predicate GroupIdsPresent(st: Store) {
    forall r :: r in st.accountGroups.rows ==> KeyOf(r, GroupId).Some?
  }

  ghost predicate Joined(st: Store, a: int, g: int) {
    exists r, x ::
      && r in st.accountGroups.rows && Equals(AccountId, a)(r) && Equals(GroupId, g)(r)
      && x in st.groups.rows && Equals(Id, g)(x)
  }

  // Group g is in Edges.Groups.
  ghost predicate ViaGroups(groups: seq<Row>, g: int) {
    exists j :: 0 <= j < |groups| && IntOf(groups[j], Id) == g
  }

  // Group g is the Edges.Group of some element of Edges.AccountGroups.
  ghost predicate ViaJoins(joins: seq<AccountGroupTree>, g: int) {
    exists j :: 0 <= j < |joins| && joins[j].group.Some? && IntOf(joins[j].group.value, Id) == g
  }

  lemma DecodedIds(columns: seq<Column>, rows: seq<Row>, g: int)
    requires Id in columns
    ensures ViaGroups(DecodeAll(columns, rows), g) <==> exists j :: 0 <= j < |rows| && IntOf(rows[j], Id) == g
  {
    forall j | 0 <= j < |rows|
      ensures IntOf(DecodeAll(columns, rows)[j], Id) == IntOf(rows[j], Id)
    {
      DecodeKey(columns, rows[j], Id);
    }
  }

  lemma LinkedIsJoined(st: Store, a: int, g: int)
    requires UniqueIds(st.groups.rows)
    ensures Joined(st, a, g)
       <==> exists x :: x in st.groups.rows && IntOf(x, Id) == g && LinkedTo(st.accountGroups.rows, a)(x)
  {
    var links := st.accountGroups.rows;
    if Joined(st, a, g) {
      var r, x :| r in links && Equals(AccountId, a)(r) && Equals(GroupId, g)(r) && x in st.groups.rows
        && Equals(Id, g)(x);
      var k :| 0 <= k < |links| && links[k] == r;
      assert Joins(links[k], x);
    }
    forall x | x in st.groups.rows && IntOf(x, Id) == g && LinkedTo(links, a)(x)
      ensures Joined(st, a, g)
    {
      var k :| 0 <= k < |links| && Joins(links[k], x) && Equals(AccountId, a)(links[k]);
      assert Equals(GroupId, g)(links[k]) && Equals(Id, g)(x);
    }
  }

  lemma GroupsLinked(st: Store, q: EntityQ, rows: seq<Row>, i: nat)
    requires UniqueIds(st.groups.rows) && UniqueIds(rows) && i < |rows| && q.sel.Unpaged() && q.joins == []
    ensures GroupsFor(st, q, Ints(rows, Id))[i]
         == DecodeAll(EntityColumns(st.groups.columns, q.sel.fields),
              Select(st.groups.rows, q.sel.Where(LinkedTo(st.accountGroups.rows, IntOf(rows[i], Id)))))
  {
    hide GroupsFor, DecodeAll, EntityColumns, Select, LinkedTo, UniqueIds, Ints;
    GroupsNaive(st, Some(q), rows, i);
  }

  lemma GroupsRoute(st: Store, q: EntityQ, rows: seq<Row>, i: nat, g: int)
    requires ValidStore(st) && UniqueIds(rows) && i < |rows| && Unfiltered(q.sel) && q.joins == []
    ensures ViaGroups(GroupsFor(st, q, Ints(rows, Id))[i], g) <==> Joined(st, IntOf(rows[i], Id), g)
  {
    hide GroupsFor, Joined, ViaGroups, DecodeAll, Select, LinkedTo, UniqueIds, Ints;
    var a := IntOf(rows[i], Id);
    var linked := Select(st.groups.rows, q.sel.Where(LinkedTo(st.accountGroups.rows, a)));
    var columns := EntityColumns(st.groups.columns, q.sel.fields);
    GroupsLinked(st, q, rows, i);
    SelectWhere(st.groups.rows, q.sel, LinkedTo(st.accountGroups.rows, a));
    DecodedIds(columns, linked, g);
    LinkedIsJoined(st, a, g);
    assert (exists j :: 0 <= j < |linked| && IntOf(linked[j], Id) == g)
      <==> (exists x :: x in linked && IntOf(x, Id) == g);
  }

  // The join rows of account i: their positions in the batch, and their groups.
  lemma JoinsOf(st: Store, q: AccountGroupQ, rows: seq<Row>, i: nat, batch: seq<Row>) returns (ps: seq<nat>)
    requires UniqueIds(rows) && i < |rows| && Unfiltered(q.sel)
    requires batch == Select(st.accountGroups.rows, JoinSelection(q.sel, Ints(rows, Id)))
    ensures forall p :: p in ps <==> 0 <= p < |batch| && IntOf(batch[p], AccountId) == IntOf(rows[i], Id)
    ensures AccountGroupsFor(st, q, Ints(rows, Id))[i]
         == At(LoadedGroups(st, q.sel.WithField(AccountId).fields, q, batch), ps)
  {
    UniqueOwner(rows, i);
    PositionsMembers(Is(IntOf(rows[i], Id)), Ints(batch, AccountId));
    ps := Positions(Is(IntOf(rows[i], Id)), Ints(batch, AccountId));
  }

  // The join rows of an account are those that name it.
  lemma BatchJoins(st: Store, sel: Selection, ids: seq<int>, a: int)
    requires Unfiltered(sel) && a in ids
    ensures var batch := Select(st.accountGroups.rows, JoinSelection(sel, ids));
            && (forall r :: r in batch && IntOf(r, AccountId) == a ==>
                  r in st.accountGroups.rows && Equals(AccountId, a)(r))
            && forall r :: r in st.accountGroups.rows && Equals(AccountId, a)(r) ==> r in batch
  {
    SelectWhere(st.accountGroups.rows, sel.WithField(AccountId), InValues(AccountId, ids));
  }

  // The group of join row p of a batch.
  lemma JoinGroup(st: Store, fields: seq<Column>, q: AccountGroupQ, batch: seq<Row>, p: nat)
    requires WellTyped(st) && p < |batch| && q.group.Some? && Unfiltered(q.group.value.sel)
    ensures var x := LoadedGroups(st, fields, q, batch)[p].group;
            && (x.Some? <==> exists r :: r in st.groups.rows && Equals(Id, IntOf(batch[p], GroupId))(r))
            && (x.Some? ==> IntOf(x.value, Id) == IntOf(batch[p], GroupId))
  {
    hide EntitiesFor, AccountEdge, Decode, AccountGroupColumns;
    assert LoadedGroups(st, fields, q, batch)[p] == LoadedGroup(st, fields, q, batch, p);
    EntityLoaded(st.groups, q.group.value, Somes(Ints(batch, GroupId)), p);
  }

  // Group g is the Edges.Group of some row of the batch that names account a.
  ghost predicate InBatch(st: Store, batch: seq<Row>, a: int, g: int) {
    && (exists p :: 0 <= p < |batch| && IntOf(batch[p], AccountId) == a && IntOf(batch[p], GroupId) == g)
    && exists r :: r in st.groups.rows && Equals(Id, g)(r)
  }

  lemma PickedGroups(st: Store, fields: seq<Column>, q: AccountGroupQ, batch: seq<Row>, ps: seq<nat>, a: int, g: int)
    requires WellTyped(st) && q.group.Some? && Unfiltered(q.group.value.sel)
    requires forall p :: p in ps <==> 0 <= p < |batch| && IntOf(batch[p], AccountId) == a
    ensures ViaJoins(At(LoadedGroups(st, fields, q, batch), ps), g) <==> InBatch(st, batch, a, g)
  {
    hide LoadedGroup, WellTyped;
    var joins := At(LoadedGroups(st, fields, q, batch), ps);
    forall j | 0 <= j < |ps|
      ensures var x, k := joins[j].group, IntOf(batch[ps[j]], GroupId);
              && (x.Some? <==> exists r :: r in st.groups.rows && Equals(Id, k)(r))
              && (x.Some? ==> IntOf(x.value, Id) == k)
    {
      assert ps[j] in ps;
      JoinGroup(st, fields, q, batch, ps[j]);
    }
    if InBatch(st, batch, a, g) {
      var p :| 0 <= p < |batch| && IntOf(batch[p], AccountId) == a && IntOf(batch[p], GroupId) == g;
      assert p in ps;
      var j :| 0 <= j < |ps| && ps[j] == p;
      assert joins[j].group.Some?;
    }
    if ViaJoins(joins, g) {
      var j :| 0 <= j < |joins| && joins[j].group.Some? && IntOf(joins[j].group.value, Id) == g;
      assert ps[j] in ps;
    }
  }

  lemma BatchIsJoined(st: Store, sel: Selection, ids: seq<int>, a: int, g: int)
    requires GroupIdsPresent(st) && Unfiltered(sel) && a in ids
    ensures InBatch(st, Select(st.accountGroups.rows, JoinSelection(sel, ids)), a, g) <==> Joined(st, a, g)
  {
    var batch := Select(st.accountGroups.rows, JoinSelection(sel, ids));
    BatchJoins(st, sel, ids, a);
    if InBatch(st, batch, a, g) {
      var p :| 0 <= p < |batch| && IntOf(batch[p], AccountId) == a && IntOf(batch[p], GroupId) == g;
      assert batch[p] in batch;
      assert Equals(GroupId, g)(batch[p]);
    }
    if Joined(st, a, g) {
      var r, x :| r in st.accountGroups.rows && Equals(AccountId, a)(r) && Equals(GroupId, g)(r)
                  && x in st.groups.rows && Equals(Id, g)(x);
      var p :| 0 <= p < |batch| && batch[p] == r;
      assert IntOf(batch[p], AccountId) == a && IntOf(batch[p], GroupId) == g;
    }
  }

  lemma JoinsRoute(st: Store, q: AccountGroupQ, rows: seq<Row>, i: nat, g: int)
    requires ValidStore(st) && GroupIdsPresent(st) && UniqueIds(rows) && i < |rows|
    requires Unfiltered(q.sel) && q.group.Some? && Unfiltered(q.group.value.sel)
    ensures ViaJoins(AccountGroupsFor(st, q, Ints(rows, Id))[i], g) <==> Joined(st, IntOf(rows[i], Id), g)
  {
    var ids := Ints(rows, Id);
    var batch := Select(st.accountGroups.rows, JoinSelection(q.sel, ids));
    var ps := JoinsOf(st, q, rows, i, batch);
    assert ids[i] in ids;
    BatchIsJoined(st, q.sel, ids, ids[i], g);
    PickedGroups(st, q.sel.WithField(AccountId).fields, q, batch, ps, ids[i], g);
  }

  // Both routes reach the same groups: those that some join row connects to the
  // account and that exist.
  lemma TwoRoutesAgree(st: Store, fields: seq<Column>, e: EdgesQ, rows: seq<Row>, i: nat, g: int)
    requires ValidStore(st) && GroupIdsPresent(st) && UniqueIds(rows) && i < |rows|
    requires e.groups.Some? && Unfiltered(e.groups.value.sel) && e.groups.value.joins == []
    requires e.accountGroups.Some? && Unfiltered(e.accountGroups.value.sel)
    requires e.accountGroups.value.group.Some? && Unfiltered(e.accountGroups.value.group.value.sel)
    ensures var t := LoadedNode(st, fields, e, rows, i); ViaGroups(t.groups, g) <==> ViaJoins(t.accountGroups, g)
  {
    GroupsRoute(st, e.groups.value, rows, i, g);
    JoinsRoute(st, e.accountGroups.value, rows, i, g);
  }

  // ---- parents and children ----------------------------------------------------------

  ghost predicate IsChild(children: seq<AccountTree>, c: int) {
    exists j :: 0 <= j < |children| && IntOf(children[j].fields, Id) == c
  }

  // The children of account i: their positions in the batch.
  lemma ChildrenOf(st: Store, q: AccountQ, rows: seq<Row>, i: nat, batch: seq<Row>) returns (ps: seq<nat>)
    requires UniqueIds(rows) && i < |rows| && batch == Select(st.accounts.rows, ChildSelection(q.sel, Ints(rows, Id)))
    ensures forall p :: p in ps <==> 0 <= p < |batch| && IntOf(batch[p], ParentAccountId) == IntOf(rows[i], Id)
    ensures ChildrenFor(st, q, Ints(rows, Id))[i]
         == At(Loaded(st, ChildSelection(q.sel, Ints(rows, Id)).fields, q.edges, batch), ps)
  {
    hide Select, Loaded, UniqueIds, Selection.WithField, Selection.Where;
    UniqueOwner(rows, i);
    PositionsMembers(Is(IntOf(rows[i], Id)), Ints(batch, ParentAccountId));
    ps := Positions(Is(IntOf(rows[i], Id)), Ints(batch, ParentAccountId));
  }

  // Account c is loaded at one of some positions exactly if its id is found there.
  lemma ChildAt(st: Store, fields: seq<Column>, e: EdgesQ, batch: seq<Row>, ps: seq<nat>, c: Row)
    requires WellTyped(st) && UniqueIds(st.accounts.rows) && c in st.accounts.rows
    requires forall p :: p in ps ==> p < |batch|
    requires forall r :: r in batch ==> r in st.accounts.rows
    ensures IsChild(At(Loaded(st, fields, e, batch), ps), IntOf(c, Id)) <==> exists p :: p in ps && batch[p] == c
  {
    hide Loaded, WellTyped, UniqueIds;
    var children := At(Loaded(st, fields, e, batch), ps);
    forall p | p in ps
      ensures IntOf(Loaded(st, fields, e, batch)[p].fields, Id) == IntOf(batch[p], Id)
    {
      LoadedId(st, fields, e, batch, p);
    }
    if IsChild(children, IntOf(c, Id)) {
      var j :| 0 <= j < |children| && IntOf(children[j].fields, Id) == IntOf(c, Id);
      assert ps[j] in ps && batch[ps[j]] in batch;
      SameById(st.accounts.rows, batch[ps[j]], c);
    }
    if p :| p in ps && batch[p] == c {
      var j :| 0 <= j < |ps| && ps[j] == p;
      assert IntOf(children[j].fields, Id) == IntOf(c, Id);
    }
  }

  lemma SameById(rows: seq<Row>, x: Row, y: Row)
    requires UniqueIds(rows) && x in rows && y in rows && IntOf(x, Id) == IntOf(y, Id)
    ensures x == y
  {
  }

  lemma ChildrenRoute(st: Store, q: AccountQ, rows: seq<Row>, i: nat, c: Row)
    requires ValidStore(st) && UniqueIds(rows) && i < |rows| && Unfiltered(q.sel) && c in st.accounts.rows
    ensures IsChild(ChildrenFor(st, q, Ints(rows, Id))[i], IntOf(c, Id))
       <==> KeyOf(c, ParentAccountId) == Some(IntOf(rows[i], Id))
  {
    hide IsChild, ChildrenFor, Select, UniqueIds, WellTyped, Loaded, Selection.WithField;
    var ids := Ints(rows, Id);
    var batch := Select(st.accounts.rows, ChildSelection(q.sel, ids));
    var ps := ChildrenOf(st, q, rows, i, batch);
    BatchChildren(st, q.sel, ids, ids[i], c);
    assert forall r :: r in batch ==> r in st.accounts.rows by {
      SelectMembers(st.accounts.rows, ChildSelection(q.sel, ids));
    }
    ChildAt(st, ChildSelection(q.sel, ids).fields, q.edges, batch, ps, c);
  }

  // The rows of a batch that refer to account a are those that refer to it at all.
  lemma BatchChildren(st: Store, sel: Selection, ids: seq<int>, a: int, c: Row)
    requires Unfiltered(sel) && a in ids && c in st.accounts.rows
    ensures var batch := Select(st.accounts.rows, ChildSelection(sel, ids));
            KeyOf(c, ParentAccountId) == Some(a)
            <==> exists p :: 0 <= p < |batch| && IntOf(batch[p], ParentAccountId) == a && batch[p] == c
  {
    hide Select;
    var batch := Select(st.accounts.rows, ChildSelection(sel, ids));
    SelectWhere(st.accounts.rows, sel.WithField(ParentAccountId), InValues(ParentAccountId, ids));
    if KeyOf(c, ParentAccountId) == Some(a) {
      assert c in batch;
    }
    if p :| 0 <= p < |batch| && IntOf(batch[p], ParentAccountId) == a && batch[p] == c {
      assert batch[p] in batch;
    }
  }

  // loadChildren and loadParent are inverse: c is among the children of n exactly
  // if n is loaded as the parent of c, whichever batches n and c are part of.
  lemma ParentsAndChildrenInverse(
    st: Store, above: AccountQ, below: AccountQ, ns: seq<Row>, i: nat, cs: seq<Row>, j: nat)
    requires ValidStore(st) && Unfiltered(above.sel) && Unfiltered(below.sel)
    requires UniqueIds(ns) && i < |ns| && ns[i] in st.accounts.rows && j < |cs| && cs[j] in st.accounts.rows
    ensures var parent := AccountsFor(st, above, Keys(cs, ParentAccountId))[j];
            IsChild(ChildrenFor(st, below, Ints(ns, Id))[i], IntOf(cs[j], Id))
            <==> parent.Some? && IntOf(parent.value.fields, Id) == IntOf(ns[i], Id)
  {
    ChildrenRoute(st, below, ns, i, cs[j]);
    ParentLoaded(st, above, Keys(cs, ParentAccountId), j);
    if KeyOf(cs[j], ParentAccountId) == Some(IntOf(ns[i], Id)) {
      assert Reachable(st.accounts.rows, above.sel, IntOf(ns[i], Id)) by {
        assert Satisfies(ns[i], above.sel.predicates) && Equals(Id, IntOf(ns[i], Id))(ns[i]);
      }
    }
  }

  // ---- one-to-many conservation --------------------------------------------------------

  function Flatten<T>(lists: seq<seq<T>>): seq<T> {
    if lists == [] then [] else Flatten(lists[..|lists| - 1]) + lists[|lists| - 1]
  }

  lemma {:induction false} FlattenUpdate<T>(lists: seq<seq<T>>, o: nat, x: T)
    requires o < |lists|
    ensures multiset(Flatten(lists[o := lists[o] + [x]])) == multiset(Flatten(lists)) + multiset{x}
  {
    var n, lists' := |lists| - 1, lists[o := lists[o] + [x]];
    if o == n {
      assert lists'[..n] == lists[..n];
    } else {
      assert lists'[..n] == lists[..n][o := lists[..n][o] + [x]];
      FlattenUpdate(lists[..n], o, x);
    }
  }

  lemma {:induction false} FlattenEmpty<T>(n: nat)
    ensures Flatten(Repeat<seq<T>>(n, [])) == []
  {
    if n > 0 {
      assert Repeat<seq<T>>(n, [])[..n - 1] == Repeat<seq<T>>(n - 1, []);
      FlattenEmpty<T>(n - 1);
    }
  }

  lemma {:induction false} HandedConserves<T>(ids: seq<int>, fks: seq<int>, xs: seq<T>, j: nat)
    requires j <= |fks| == |xs| && forall k :: 0 <= k < j ==> LastIndex(ids, fks[k]) >= 0
    ensures multiset(Flatten(Handed(ids, fks, xs, j))) == multiset(xs[..j])
  {
    hide Flatten, LastIndex;
    if j == 0 {
      FlattenEmpty<T>(|ids|);
    } else {
      var lists, o, x := Handed(ids, fks, xs, j - 1), LastIndex(ids, fks[j - 1]), xs[j - 1];
      HandedConserves(ids, fks, xs, j - 1);
      FlattenUpdate(lists, o, x);
      assert Handed(ids, fks, xs, j) == lists[o := lists[o] + [x]];
      assert xs[..j] == xs[..j - 1] + [x];
    }
  }

  // The lists of the nodes are a partition of the whole result, even when several
  // nodes share an id.
  lemma FanConserves<T>(ids: seq<int>, fks: seq<int>, xs: seq<T>)
    requires |fks| == |xs| && forall k :: 0 <= k < |fks| ==> fks[k] in ids
    ensures multiset(Flatten(FanAll(ids, fks, xs))) == multiset(xs)
  {
    forall k | 0 <= k < |fks|
      ensures LastIndex(ids, fks[k]) >= 0
    {
      assert fks[k] in ids;
    }
    HandedConserves(ids, fks, xs, |xs|);
    HandedFully(ids, fks, xs);
    assert xs[..|xs|] == xs;
  }

  // Each list is the subsequence of the result, in its order, whose foreign key is
  // the id of the node; distinct ids make every node the owner of its id.
  lemma FanInOrder<T>(ids: seq<int>, i: nat, fks: seq<int>, xs: seq<T>) returns (ps: seq<nat>)
    requires |fks| == |xs| && i < |ids| && forall j :: i < j < |ids| ==> ids[j] != ids[i]
    ensures forall p :: p in ps <==> 0 <= p < |xs| && fks[p] == ids[i]
    ensures forall j, k :: 0 <= j < k < |ps| ==> ps[j] < ps[k]
    ensures FanAll(ids, fks, xs)[i] == At(xs, ps)
  {
    ps := Positions(Is(ids[i]), fks);
    PositionsMembers(Is(ids[i]), fks);
  }

  // loadUsageLogs, loadChildren and loadAccountGroups lose and invent nothing: what
  // the nodes have received is what the subquery returned.
  lemma EdgesConserve(st: Store, e: EdgesQ, rows: seq<Row>)
    ensures e.usageLogs.Some? ==>
              var sel := LogSelection(e.usageLogs.value.sel, Ints(rows, Id));
              multiset(Flatten(LogsEdge(st, e.usageLogs, rows))) == multiset(EntityRows(st.usageLogs, sel))
    ensures e.children.Some? ==>
              var sel := ChildSelection(e.children.value.sel, Ints(rows, Id));
              multiset(Flatten(ChildrenEdge(st, e.children, rows)))
              == multiset(Loaded(st, sel.fields, e.children.value.edges, Select(st.accounts.rows, sel)))
    ensures e.accountGroups.Some? ==>
              var sel := JoinSelection(e.accountGroups.value.sel, Ints(rows, Id));
              multiset(Flatten(JoinsEdge(st, e.accountGroups, rows)))
              == multiset(LoadedGroups(st, sel.fields, e.accountGroups.value, Select(st.accountGroups.rows, sel)))
  {
    var ids := Ints(rows, Id);
    if e.usageLogs.Some? {
      var sel := e.usageLogs.value.sel;
      BatchKeys(st.usageLogs.rows, sel.WithField(AccountId), AccountId, ids);
      FanConserves(ids, Ints(Select(st.usageLogs.rows, LogSelection(sel, ids)), AccountId),
                   EntityRows(st.usageLogs, LogSelection(sel, ids)));
    }
    if e.children.Some? {
      var sel := e.children.value.sel;
      BatchKeys(st.accounts.rows, sel.WithField(ParentAccountId), ParentAccountId, ids);
      var batch := Select(st.accounts.rows, ChildSelection(sel, ids));
      FanConserves(ids, Ints(batch, ParentAccountId),
          Loaded(st, ChildSelection(sel, ids).fields, e.children.value.edges, batch));
    }
    if e.accountGroups.Some? {
      var sel := e.accountGroups.value.sel;
      BatchKeys(st.accountGroups.rows, sel.WithField(AccountId), AccountId, ids);
      var batch := Select(st.accountGroups.rows, JoinSelection(sel, ids));
      FanConserves(ids, Ints(batch, AccountId),
          LoadedGroups(st, JoinSelection(sel, ids).fields, e.accountGroups.value, batch));
    }
  }
}
