// How the loaded edges relate to the tables and to each other.
module Agreement {
  import opened Lists
  import opened Rows
  import opened Entities
  import opened EagerSpec
  import opened Denotation
  import opened Loaders
  import opened EagerLoading

  // ---- many-to-one -----------------------------------------------------------------

  // Some row with this id passes the subquery's own predicates.
  ghost predicate Reachable(rows: seq<Row>, sel: Selection, k: int) {
    exists r :: r in rows && Satisfies(r, sel.predicates) && Equals(Id, k)(r)
  }

  lemma IndexOf(rows: seq<Row>, k: int)
    requires forall r :: r in rows ==> CellOf(r, Id).IntCell?
    ensures LastIndex(Ints(rows, Id), k) >= 0 <==> exists r :: r in rows && Equals(Id, k)(r)
  {
    var i := LastIndex(Ints(rows, Id), k);
    if i >= 0 {
      assert rows[i] in rows && Equals(Id, k)(rows[i]);
    } else {
      forall r | r in rows
        ensures !Equals(Id, k)(r)
      {
        var j :| 0 <= j < |rows| && rows[j] == r;
        assert Ints(rows, Id)[j] != k;
      }
    }
  }

  // The neighbour of a key is loaded exactly if the subquery reaches a row with
  // that id, whatever other keys share the batch.
  lemma LinkedExactly<T>(rows: seq<Row>, sel: Selection, keys: seq<Option<int>>, k: int, xs: seq<T>)
    requires sel.Unpaged() && Some(k) in keys
    requires |xs| == |Select(rows, sel.Where(InValues(Id, Distinct(keys))))|
    ensures var batch := Select(rows, sel.Where(InValues(Id, Distinct(keys))));
            Linked(Some(k), Ints(batch, Id), xs).Some? <==> Reachable(rows, sel, k)
  {
    var batch := Select(rows, sel.Where(InValues(Id, Distinct(keys))));
    SelectWhere(rows, sel, InValues(Id, Distinct(keys)));
    DistinctMembers(keys);
    IndexOf(batch, k);
    assert forall r :: r in rows && Satisfies(r, sel.predicates) && Equals(Id, k)(r) ==> r in batch;
  }

  // The keys that a many-to-one loader asks for: every non-nil key, each once.
  lemma RequestedKeys(keys: seq<Option<int>>)
    ensures forall k :: k in Distinct(keys) <==> Some(k) in keys
    ensures |set k | k in Distinct(keys)| == |Distinct(keys)|
  {
    DistinctMembers(keys);
    DistinctCount(Distinct(keys));
  }

  lemma {:induction false} DistinctCount(s: seq<int>)
    requires forall i, j :: 0 <= i < j < |s| ==> s[i] != s[j]
    ensures |set k | k in s| == |s|
  {
    if s != [] {
      var t, x := s[..|s| - 1], s[|s| - 1];
      DistinctCount(t);
      assert (set k | k in s) == (set k | k in t) + {x};
    }
  }

  // The parent of a loaded node is the row that its key names, if the subquery
  // reaches that row.
  lemma ParentLoaded(st: Store, q: AccountQ, keys: seq<Option<int>>, i: nat)
    requires WellTyped(st) && i < |keys| && q.sel.Unpaged()
    ensures AccountsFor(st, q, keys)[i].Some? <==> keys[i].Some? && Reachable(st.accounts.rows, q.sel, keys[i].value)
    ensures AccountsFor(st, q, keys)[i].Some? ==> Some(IntOf(AccountsFor(st, q, keys)[i].value.fields, Id)) == keys[i]
  {
    hide WellTyped, Select, Reachable, Distinct, InValues, LoadedNode;
    if keys[i].Some? {
      var batch := Select(st.accounts.rows, q.sel.Where(InValues(Id, Distinct(keys))));
      var loaded := Loaded(st, q.sel.fields, q.edges, batch);
      LinkedExactly(st.accounts.rows, q.sel, keys, keys[i].value, loaded);
      var j := LastIndex(Ints(batch, Id), keys[i].value);
      if j >= 0 {
        LoadedId(st, q.sel.fields, q.edges, batch, j);
      }
    }
  }

  // A loaded node carries the id of its row, whatever fields are selected.
  lemma LoadedId(st: Store, fields: seq<Column>, e: EdgesQ, rows: seq<Row>, i: nat)
    requires WellTyped(st) && i < |rows|
    ensures IntOf(Loaded(st, fields, e, rows)[i].fields, Id) == IntOf(rows[i], Id)
  {
    SelectedKeyColumns(st, fields, e.proxy.Some?, e.parent.Some?);
    DecodeKey(AccountColumns(st.accounts.columns, fields, e.proxy.Some?, e.parent.Some?), rows[i], Id);
  }

  lemma SingleEdges(S: set<object>, n: Account, t: AccountTree)
    requires AccountDenotes(S, n, t)
    ensures n.loadedTypes == t.loadedTypes
    ensures if n.Parent == null then t.parent.None? else t.parent.Some? && n.Parent.fields == t.parent.value.fields
    ensures if n.Proxy == null then t.proxy.None? else t.proxy == Some(n.Proxy.fields)
  {
    hide AccountsDenote, JoinsDenote, EntitiesDenote;
    assert n.Parent != null ==> AccountDenotes(S, n.Parent, t.parent.value);
  }

  // The three states of ParentOrErr: not requested, requested but absent, and the
  // account that the foreign key names.
  lemma ParentOutcome(S: set<object>, n: Account, st: Store, fields: seq<Column>, e: EdgesQ, rows: seq<Row>, i: nat)
    requires WellTyped(st) && i < |rows| && AccountDenotes(S, n, LoadedNode(st, fields, e, rows, i))
    requires e.parent.Some? ==> e.parent.value.sel.Unpaged()
    ensures var key := KeyOf(rows[i], ParentAccountId);
            && (n.ParentOrErr() == Err(NotLoaded) <==> e.parent.None?)
            && (n.ParentOrErr() == Err(NotFound) <==>
                  e.parent.Some? && (key.None? || !Reachable(st.accounts.rows, e.parent.value.sel, key.value)))
            && (n.ParentOrErr().Ok? ==> n.ParentOrErr() == Ok(n.Parent) && Some(IntOf(n.Parent.fields, Id)) == key)
  {
    hide AccountDenotes, WellTyped, AccountsFor, Reachable, GroupsEdge, EntityEdge, ChildrenEdge, LogsEdge, JoinsEdge;
    SingleEdges(S, n, LoadedNode(st, fields, e, rows, i));
    if e.parent.Some? {
      ParentLoaded(st, e.parent.value, Keys(rows, ParentAccountId), i);
    }
  }

  lemma LinkedRow(columns: seq<Column>, batch: seq<Row>, k: int)
    requires Id in columns
    ensures var x := Linked(Some(k), Ints(batch, Id), DecodeAll(columns, batch)); x.Some? ==> IntOf(x.value, Id) == k
  {
    var j := LastIndex(Ints(batch, Id), k);
    if j >= 0 {
      DecodeKey(columns, batch[j], Id);
    }
  }

  lemma EntityLoaded(t: Table, q: EntityQ, keys: seq<Option<int>>, i: nat)
    requires Id in t.columns && i < |keys| && q.sel.Unpaged()
    ensures EntitiesFor(t, q, keys)[i].Some? <==> keys[i].Some? && Reachable(t.rows, q.sel, keys[i].value)
    ensures EntitiesFor(t, q, keys)[i].Some? ==> Some(IntOf(EntitiesFor(t, q, keys)[i].value, Id)) == keys[i]
  {
    hide Select, Reachable, EntityColumns, DecodeAll, Distinct;
    if keys[i].Some? {
      var batch := Select(t.rows, q.sel.Where(InValues(Id, Distinct(keys))));
      var columns := EntityColumns(t.columns, q.sel.fields);
      IdSelected(t.columns, q.sel.fields);
      LinkedExactly(t.rows, q.sel, keys, keys[i].value, DecodeAll(columns, batch));
      LinkedRow(columns, batch, keys[i].value);
    }
  }

  lemma ProxyOutcome(S: set<object>, n: Account, st: Store, fields: seq<Column>, e: EdgesQ, rows: seq<Row>, i: nat)
    requires WellTyped(st) && i < |rows| && AccountDenotes(S, n, LoadedNode(st, fields, e, rows, i))
    requires e.proxy.Some? ==> e.proxy.value.sel.Unpaged()
    ensures var key := KeyOf(rows[i], ProxyId);
            && (n.ProxyOrErr() == Err(NotLoaded) <==> e.proxy.None?)
            && (n.ProxyOrErr() == Err(NotFound) <==>
                  e.proxy.Some? && (key.None? || !Reachable(st.proxies.rows, e.proxy.value.sel, key.value)))
            && (n.ProxyOrErr().Ok? ==> n.ProxyOrErr() == Ok(n.Proxy) && Some(IntOf(n.Proxy.fields, Id)) == key)
  {
    hide AccountDenotes, WellTyped, EntitiesFor, Reachable, GroupsEdge, AccountEdge, ChildrenEdge, LogsEdge, JoinsEdge;
    SingleEdges(S, n, LoadedNode(st, fields, e, rows, i));
    if e.proxy.Some? {
      ProxiesKeyed(st);
      EntityLoaded(st.proxies, e.proxy.value, Keys(rows, ProxyId), i);
    }
  }

  // The list accessors: an error exactly if the edge was not requested, and else the
  // nodes that stand for the batched edge.
  lemma ListOutcomes(S: set<object>, n: Account, st: Store, fields: seq<Column>, e: EdgesQ, rows: seq<Row>, i: nat)
    requires i < |rows| && AccountDenotes(S, n, LoadedNode(st, fields, e, rows, i))
    ensures if e.groups.None? then n.GroupsOrErr() == Err(NotLoaded)
            else n.GroupsOrErr().Ok? && EntitiesDenote(n.GroupsOrErr().value, GroupsEdge(st, e.groups, rows)[i])
    ensures if e.children.None? then n.ChildrenOrErr() == Err(NotLoaded)
            else n.ChildrenOrErr().Ok?
                 && AccountsDenote(S, n.ChildrenOrErr().value, ChildrenEdge(st, e.children, rows)[i])
    ensures if e.usageLogs.None? then n.UsageLogsOrErr() == Err(NotLoaded)
            else n.UsageLogsOrErr().Ok? && EntitiesDenote(n.UsageLogsOrErr().value, LogsEdge(st, e.usageLogs, rows)[i])
    ensures if e.accountGroups.None? then n.AccountGroupsOrErr() == Err(NotLoaded)
            else n.AccountGroupsOrErr().Ok?
                 && JoinsDenote(S, n.AccountGroupsOrErr().value, JoinsEdge(st, e.accountGroups, rows)[i])
  {
    hide GroupsEdge, EntityEdge, AccountEdge, ChildrenEdge, LogsEdge, JoinsEdge, EntitiesDenote, AccountsDenote;
    hide JoinsDenote;
    hide ParentDenotes, EntityDenotes;
  }

  // The same three states for the edges of a join row, whose keys are never nil.
  lemma JoinOutcome(
    S: set<object>, n: AccountGroup, st: Store, fields: seq<Column>, q: AccountGroupQ, rows: seq<Row>, i: nat)
    requires WellTyped(st) && i < |rows| && JoinDenotes(S, n, LoadedGroup(st, fields, q, rows, i))
    requires q.account.Some? ==> q.account.value.sel.Unpaged()
    requires q.group.Some? ==> q.group.value.sel.Unpaged()
    ensures var a, g := IntOf(rows[i], AccountId), IntOf(rows[i], GroupId);
            && (n.AccountOrErr() == Err(NotLoaded) <==> q.account.None?)
            && (n.AccountOrErr() == Err(NotFound) <==>
                  q.account.Some? && !Reachable(st.accounts.rows, q.account.value.sel, a))
            && (n.AccountOrErr().Ok? ==> n.AccountOrErr() == Ok(n.Account) && IntOf(n.Account.fields, Id) == a)
            && (n.GroupOrErr() == Err(NotLoaded) <==> q.group.None?)
            && (n.GroupOrErr() == Err(NotFound) <==> q.group.Some? && !Reachable(st.groups.rows, q.group.value.sel, g))
            && (n.GroupOrErr().Ok? ==> n.GroupOrErr() == Ok(n.Group) && IntOf(n.Group.fields, Id) == g)
  {
    hide JoinDenotes, WellTyped, AccountsFor, EntitiesFor, Reachable;
    SingleJoinEdges(S, n, LoadedGroup(st, fields, q, rows, i));
    if q.account.Some? {
      ParentLoaded(st, q.account.value, Somes(Ints(rows, AccountId)), i);
    }
    if q.group.Some? {
      GroupsKeyed(st);
      EntityLoaded(st.groups, q.group.value, Somes(Ints(rows, GroupId)), i);
    }
  }

  lemma SingleJoinEdges(S: set<object>, n: AccountGroup, t: AccountGroupTree)
    requires JoinDenotes(S, n, t)
    ensures n.loadedTypes == t.loadedTypes
    ensures if n.Account == null then t.account.None? else t.account.Some? && n.Account.fields == t.account.value.fields
    ensures if n.Group == null then t.group.None? else t.group == Some(n.Group.fields)
  {
    hide AccountsDenote, JoinsDenote, EntitiesDenote;
    assert n.Account != null ==> AccountDenotes(S, n.Account, t.account.value);
  }

  // ---- many-to-many ------------------------------------------------------------------

  // Some row of the join connects account a and group g.
  ghost predicate Connected(outs: seq<int>, gids: seq<int>, a: int, g: int)
    requires |outs| == |gids|
  {
    exists j :: 0 <= j < |gids| && outs[j] == a && gids[j] == g
  }

  // The rows that bring account a a new group.
  ghost predicate Introduces(outs: seq<int>, gids: seq<int>, a: int, p: nat)
    requires |outs| == |gids|
  {
    p < |gids| && gids[p] !in gids[..p] && Connected(outs, gids, a, gids[p])
  }

  // For join rows in any order and with any repetition, an account gets exactly
  // the groups connected to it, each once, ordered by the groups' first rows.
  lemma GatherExactly<T>(outs: seq<int>, gids: seq<int>, xs: seq<T>, a: int) returns (ps: seq<nat>)
    requires |outs| == |gids| == |xs|
    ensures forall i, j :: 0 <= i < j < |ps| ==> ps[i] < ps[j]
    ensures forall p :: p in ps ==> p < |xs|
    ensures forall p: nat :: p in ps <==> Introduces(outs, gids, a, p)
    ensures Gather(outs, gids, xs, a) == At(xs, ps)
  {
    var firsts := Firsts(gids);
    var p, keys := MemberOf(outs, gids, a), At(gids, firsts);
    FirstsAscend(gids);
    PositionsMembers(p, keys);
    ps := At(firsts, Positions(p, keys));
    forall x: nat
      ensures x in ps <==> Introduces(outs, gids, a, x)
    {
      FirstsMember(gids, x);
      if x in ps {
        var m :| 0 <= m < |ps| && ps[m] == x;
        assert Positions(p, keys)[m] in Positions(p, keys);
        assert p(gids[x]);
      }
      if Introduces(outs, gids, a, x) {
        var k :| 0 <= k < |firsts| && firsts[k] == x;
        assert p(keys[k]);
        var m :| 0 <= m < |Positions(p, keys)| && Positions(p, keys)[m] == k;
        assert ps[m] == x;
      }
    }
  }

  // Every group connected to a is introduced by some row.
  lemma ConnectedIntroduced(outs: seq<int>, gids: seq<int>, a: int, g: int) returns (p: nat)
    requires |outs| == |gids| && Connected(outs, gids, a, g)
    ensures Introduces(outs, gids, a, p) && gids[p] == g
  {
    var j :| 0 <= j < |gids| && outs[j] == a && gids[j] == g;
    p := FirstOf(gids, j);
  }

  lemma {:induction false} FirstsMember(gids: seq<int>, p: nat)
    ensures p in Firsts(gids) <==> p < |gids| && gids[p] !in gids[..p]
  {
    if gids != [] {
      var n := |gids| - 1;
      FirstsMember(gids[..n], p);
      if p < n {
        assert gids[..n][..p] == gids[..p];
      }
    }
  }

  lemma {:induction false} FirstsAscend(gids: seq<int>)
    ensures forall i :: 0 <= i < |Firsts(gids)| ==> Firsts(gids)[i] < |gids|
    ensures forall i, j :: 0 <= i < j < |Firsts(gids)| ==> Firsts(gids)[i] < Firsts(gids)[j]
  {
    if gids != [] {
      FirstsAscend(gids[..|gids| - 1]);
    }
  }

  lemma {:induction false} FirstOf(gids: seq<int>, j: nat) returns (p: nat)
    requires j < |gids|
    ensures p <= j && gids[p] == gids[j] && gids[p] !in gids[..p]
  {
    p := j;
    if gids[j] in gids[..j] {
      var i :| 0 <= i < j && gids[..j][i] == gids[j];
      p := FirstOf(gids, i);
    }
  }
}
