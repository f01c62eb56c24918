// Builder calls on a query tree and on the queries nested in it, and what they
// cannot reach: a clone and its original (backend/ent/account_query.go:45-69,
// 386-475, 497-504, 935-960; backend/ent/accountgroup_query.go:36-61, 218-260).
module Editing {
  import opened Lists
  import opened Rows
  import opened EagerSpec
  import opened Queries
  import opened Selections
  import opened NodeFields

  // The edge of a nested query.
  datatype Edge = ToGroups | ToProxy | ToParent | ToChildren | ToUsageLogs | ToAccountGroups | ToAccount | ToGroup

  // A With method requests an edge with a new query, which later calls may configure.
  datatype Call =
    | Where(p: Predicate)
    | Limit(n: nat)
    | Offset(n: nat)
    | Order(o: seq<OrderOption>)
    | SelectFields(fields: seq<Column>)
    | ForUpdate(lock: string)
    | With(edge: Edge)

  // ---- what a call means ---------------------------------------------------------------------

  const NEW_SELECTION := Selection([], [], [], None, None, [])

  const NEW_ENTITIES := EntityQ(NEW_SELECTION, [])

  const NEW_ACCOUNTS := AccountQ(NEW_SELECTION, EdgesQ(None, None, None, None, None, None))

  const NEW_JOINS := AccountGroupQ(NEW_SELECTION, None, None)

  function EditSelection(sel: Selection, call: Call): Selection {
    match call
    case Where(p) => sel.Where(p)
    case Limit(n) => sel.(limit := Some(n))
    case Offset(n) => sel.(offset := Some(n))
    case Order(o) => sel.(order := sel.order + o)
    case SelectFields(fields) => sel.(fields := sel.fields + fields)
    case ForUpdate(lock) => sel.(modifiers := sel.modifiers + [lock])
    case With(_) => sel
  }

  function EditMaybeEntity(q: Option<EntityQ>, path: seq<Edge>, call: Call): Option<EntityQ> {
    if q.None? || path != [] then q else Some(q.value.(sel := EditSelection(q.value.sel, call)))
  }

  // The call on the query that the path leads to; no query there, no call.
  function EditAccounts(q: AccountQ, path: seq<Edge>, call: Call): AccountQ
    decreases |path|, 1
  {
    if path != [] then AccountQ(q.sel, EditEdges(q.edges, path[0], path[1..], call))
    else AccountQ(EditSelection(q.sel, call), if call.With? then RequestEdge(q.edges, call.edge) else q.edges)
  }

  function RequestEdge(e: EdgesQ, edge: Edge): EdgesQ {
    match edge
    case ToGroups => e.(groups := Some(NEW_ENTITIES))
    case ToProxy => e.(proxy := Some(NEW_ENTITIES))
    case ToParent => e.(parent := Some(NEW_ACCOUNTS))
    case ToChildren => e.(children := Some(NEW_ACCOUNTS))
    case ToUsageLogs => e.(usageLogs := Some(NEW_ENTITIES))
    case ToAccountGroups => e.(accountGroups := Some(NEW_JOINS))
    case _ => e
  }

  function EditMaybeAccounts(q: Option<AccountQ>, path: seq<Edge>, call: Call): Option<AccountQ>
    decreases |path|, 2
  {
    if q.None? then None else Some(EditAccounts(q.value, path, call))
  }

  function EditEdges(e: EdgesQ, edge: Edge, path: seq<Edge>, call: Call): EdgesQ
    decreases |path| + 1, 0
  {
    match edge
    case ToGroups => e.(groups := EditMaybeEntity(e.groups, path, call))
    case ToProxy => e.(proxy := EditMaybeEntity(e.proxy, path, call))
    case ToParent => e.(parent := EditMaybeAccounts(e.parent, path, call))
    case ToChildren => e.(children := EditMaybeAccounts(e.children, path, call))
    case ToUsageLogs => e.(usageLogs := EditMaybeEntity(e.usageLogs, path, call))
    case ToAccountGroups => e.(accountGroups := EditMaybeJoins(e.accountGroups, path, call))
    case _ => e
  }

  function EditMaybeJoins(q: Option<AccountGroupQ>, path: seq<Edge>, call: Call): Option<AccountGroupQ>
    decreases |path|, 2
  {
    if q.None? then None else Some(EditJoins(q.value, path, call))
  }

  function EditJoins(q: AccountGroupQ, path: seq<Edge>, call: Call): AccountGroupQ
    decreases |path|, 1
  {
    if path == [] then
      var sel := EditSelection(q.sel, call);
      AccountGroupQ(sel, if call == With(ToAccount) then Some(NEW_ACCOUNTS) else q.account,
                    if call == With(ToGroup) then Some(NEW_ENTITIES) else q.group)
    else if path[0] == ToAccount then q.(account := EditMaybeAccounts(q.account, path[1..], call))
    else if path[0] == ToGroup then q.(group := EditMaybeEntity(q.group, path[1..], call))
    else q
  }

  // ---- what a call does to the result ----------------------------------------------------------

  // Where adds a condition to those that every returned row satisfies.
  lemma WhereNarrows(sel: Selection, p: Predicate, r: Row)
    ensures Satisfies(r, EditSelection(sel, Where(p)).predicates)
       <==> p(r) && forall k :: 0 <= k < |sel.predicates| ==> sel.predicates[k](r)
  {
    SatisfiesSnoc(r, sel.predicates, p);
  }

  // On an unpaged query, Limit returns the first n rows, unless n is 0; Offset leaves them out.
  lemma LimitTakes(rows: seq<Row>, sel: Selection, n: nat)
    requires sel.limit == None && sel.offset == None
    ensures var all := Select(rows, sel);
            Select(rows, EditSelection(sel, Limit(n))) == if n == 0 || n >= |all| then all else all[..n]
  {
  }

  lemma OffsetSkips(rows: seq<Row>, sel: Selection, n: nat)
    requires sel.limit == None && sel.offset == None
    ensures var all := Select(rows, sel);
            Select(rows, EditSelection(sel, Offset(n))) == if n >= |all| then [] else all[n..]
  {
  }

  // Order options only decide where the earlier ones tie.
  lemma OrderRefines(sel: Selection, o: seq<OrderOption>, k: nat)
    requires k < |sel.order| + |o|
    ensures |EditSelection(sel, Order(o)).order| == |sel.order| + |o|
    ensures EditSelection(sel, Order(o)).order[k] == if k < |sel.order| then sel.order[k] else o[k - |sel.order|]
  {
  }

  // Select adds fields to the chosen ones; the first one ends the choice of all.
  lemma SelectAdds(all: seq<Column>, sel: Selection, fields: seq<Column>, keys: set<Column>, c: Column)
    requires fields != []
    ensures Chosen(all, EditSelection(sel, SelectFields(fields)).fields, keys, c)
       <==> c == Id || c in sel.fields || c in fields || c in keys
  {
  }

  // A lock changes no result.
  lemma LockKeepsRows(rows: seq<Row>, sel: Selection, lock: string)
    ensures Select(rows, EditSelection(sel, ForUpdate(lock))) == Select(rows, sel)
    ensures EditSelection(sel, ForUpdate(lock)).fields == sel.fields
  {
  }

  // With requests its own edge and no other, with a query for all rows.
  lemma WithRequests(q: AccountQ, edge: Edge)
    ensures var e, was := EditAccounts(q, [], With(edge)).edges, q.edges;
            && EditAccounts(q, [], With(edge)).sel == q.sel
            && (edge.ToGroups? || e.groups == was.groups) && (edge.ToProxy? || e.proxy == was.proxy)
            && (edge.ToParent? || e.parent == was.parent) && (edge.ToChildren? || e.children == was.children)
            && (edge.ToUsageLogs? || e.usageLogs == was.usageLogs)
            && (edge.ToAccountGroups? || e.accountGroups == was.accountGroups)
            && (edge.ToGroups? ==> e.groups.Some? && e.groups.value.sel == NEW_SELECTION && e.groups.value.joins == [])
            && (edge.ToProxy? ==> e.proxy.Some? && e.proxy.value.sel == NEW_SELECTION)
            && (edge.ToParent? ==> e.parent.Some? && e.parent.value.sel == NEW_SELECTION)
            && (edge.ToChildren? ==> e.children.Some? && e.children.value.sel == NEW_SELECTION)
            && (edge.ToUsageLogs? ==> e.usageLogs.Some? && e.usageLogs.value.sel == NEW_SELECTION)
            && (edge.ToAccountGroups? ==> e.accountGroups.Some? && e.accountGroups.value.sel == NEW_SELECTION)
  {
  }

  // A call below an edge reaches the query of this edge, and no other one.
  lemma PathReaches(q: AccountQ, edge: Edge, path: seq<Edge>, call: Call)
    ensures var e, was := EditAccounts(q, [edge] + path, call).edges, q.edges;
            && EditAccounts(q, [edge] + path, call).sel == q.sel && e.LoadedTypes() == was.LoadedTypes()
            && (edge.ToGroups? || e.groups == was.groups) && (edge.ToProxy? || e.proxy == was.proxy)
            && (edge.ToParent? || e.parent == was.parent) && (edge.ToChildren? || e.children == was.children)
            && (edge.ToUsageLogs? || e.usageLogs == was.usageLogs)
            && (edge.ToAccountGroups? || e.accountGroups == was.accountGroups)
            && (edge.ToParent? && was.parent.Some? ==> e.parent.value == EditAccounts(was.parent.value, path, call))
            && (edge.ToChildren? && was.children.Some? ==>
                  e.children.value == EditAccounts(was.children.value, path, call))
            && (edge.ToProxy? && was.proxy.Some? && path == [] ==>
                  e.proxy.value.sel == EditSelection(was.proxy.value.sel, call))
            && (edge.ToGroups? && was.groups.Some? && path == [] ==>
                  e.groups.value.sel == EditSelection(was.groups.value.sel, call))
            && (edge.ToUsageLogs? && was.usageLogs.Some? && path == [] ==>
                  e.usageLogs.value.sel == EditSelection(was.usageLogs.value.sel, call))
            && (edge.ToAccountGroups? && was.accountGroups.Some? && path == [] ==>
                  e.accountGroups.value.sel == EditSelection(was.accountGroups.value.sel, call))
  {
    hide EditSelection;
    assert ([edge] + path)[1..] == path;
    var e := EditEdges(q.edges, edge, path, call);
    assert EditAccounts(q, [edge] + path, call).edges == e;
    match edge
    case ToParent =>
      assert e.parent == EditMaybeAccounts(q.edges.parent, path, call);
    case ToChildren =>
      assert e.children == EditMaybeAccounts(q.edges.children, path, call);
    case ToAccountGroups =>
      assert e.accountGroups == EditMaybeJoins(q.edges.accountGroups, path, call);
    case _ =>
  }

  lemma NewSelectsAll(rows: seq<Row>)
    ensures Select(rows, NEW_SELECTION) == rows
  {
    FilterAll(Matching([]), rows);
    TiedStay<Row>([], rows);
  }

  // ---- the calls on the objects -----------------------------------------------------------------

  method CallEntity(q: EntityQuery, call: Call)
    modifies q`predicates, q`order, q`modifiers, q.ctx
    ensures q.Value() == old(q.Value()).(sel := EditSelection(old(q.Sel()), call))
  {
    match call
    case Where(p) => q.Where(p);
    case Limit(n) => q.Limit(n);
    case Offset(n) => q.Offset(n);
    case Order(o) => q.Order(o);
    case SelectFields(fields) => q.SelectFields(fields);
    case ForUpdate(lock) => q.ForUpdate(lock);
    case With(_) =>
  }

  method CallMaybeEntity(q: EntityQuery?, path: seq<Edge>, call: Call)
    modifies EntityRepr(q)
    ensures EntityValue(q) == EditMaybeEntity(old(EntityValue(q)), path, call)
    ensures q != null ==> q.joins == old(q.joins)
  {
    if q != null && |path| == 0 {
      CallEntity(q, call);
    }
  }

  method CallAccounts(q: AccountQuery, call: Call)
    requires q.Valid() && !call.With?
    modifies q`predicates, q`order, q`modifiers, q.ctx
    ensures q.Valid() && q.Value() == AccountQ(EditSelection(old(q.Sel()), call), old(q.Edges()))
  {
    hide AccountQuery.Valid, AccountQuery.Separate, AccountQuery.Edges;
    match call
    case Where(p) => q.Where(p);
    case Limit(n) => q.Limit(n);
    case Offset(n) => q.Offset(n);
    case Order(o) => q.Order(o);
    case SelectFields(fields) => q.SelectFields(fields);
    case ForUpdate(lock) => q.ForUpdate(lock);
  }

  method RequestEntities(q: AccountQuery, edge: Edge)
    requires q.Valid() && (edge == ToGroups || edge == ToProxy || edge == ToUsageLogs)
    modifies q
    ensures q.Valid() && fresh(q.Subs - old(q.Subs))
    ensures q.Sel() == old(q.Sel()) && q.Edges() == RequestEdge(old(q.Edges()), edge)
  {
    hide AccountQuery.Valid, AccountQuery.Separate, AccountQuery.Edges;
    var query := new EntityQuery();
    Kept(q);
    match edge
    case ToGroups => q.WithGroups(query);
    case ToProxy => q.WithProxy(query);
    case ToUsageLogs => q.WithUsageLogs(query);
  }

  method RequestTree(q: AccountQuery, edge: Edge)
    requires q.Valid() && (edge == ToParent || edge == ToChildren || edge == ToAccountGroups)
    modifies q
    ensures q.Valid() && fresh(q.Subs - old(q.Subs))
    ensures q.Sel() == old(q.Sel()) && q.Edges() == RequestEdge(old(q.Edges()), edge)
  {
    hide AccountQuery.Valid, AccountQuery.Separate, AccountQuery.Edges, AccountGroupQuery.Valid;
    hide AccountGroupQuery.Value;
    if edge == ToAccountGroups {
      var query := new AccountGroupQuery();
      Kept(q);
      q.WithAccountGroups(query);
    } else {
      var query := new AccountQuery();
      Kept(q);
      if edge == ToParent {
        q.WithParent(query);
      } else {
        q.WithChildren(query);
      }
    }
  }

  // A call on the root of the tree.
  method EditRoot(q: AccountQuery, call: Call)
    requires q.Valid()
    modifies q, q.ctx
    ensures q.Valid() && fresh(q.Subs - old(q.Subs))
    ensures q.Value() == EditAccounts(old(q.Value()), [], call)
  {
    hide AccountQuery.Valid, AccountQuery.Separate, AccountQuery.Edges;
    if !call.With? {
      CallAccounts(q, call);
    } else {
      match call.edge
      case ToGroups | ToProxy | ToUsageLogs => RequestEntities(q, call.edge);
      case ToParent | ToChildren | ToAccountGroups => RequestTree(q, call.edge);
      case ToAccount | ToGroup =>
    }
  }

  // ---- calls on nested queries --------------------------------------------------------------------

  // A call on a leaf of the tree, or on nothing.
  method EditLeaf(q: AccountQuery, edge: Edge, path: seq<Edge>, call: Call)
    requires q.Valid() && (edge == ToGroups || edge == ToProxy || edge == ToUsageLogs)
    modifies q.Subs
    ensures q.Valid() && q.Subs == old(q.Subs)
    ensures q.Sel() == old(q.Sel()) && q.Edges() == EditEdges(old(q.Edges()), edge, path, call)
  {
    hide AccountQuery.Valid, AccountQuery.Separate, AccountQuery.Edges, AccountValue, JoinValue, EntityValue;
    hide MaybeValid, MaybeValidJoin, AccountRepr, GroupsRepr, EntityRepr, EditMaybeEntity;
    SmallerParts(q);
    var leaf := if edge == ToGroups then q.withGroups else if edge == ToProxy then q.withProxy else q.withUsageLogs;
    CallMaybeEntity(leaf, path, call);
    if edge != ToGroups {
      KeptEntity(q.withGroups);
    }
    if edge != ToProxy {
      KeptEntity(q.withProxy);
    }
    if edge != ToUsageLogs {
      KeptEntity(q.withUsageLogs);
    }
    KeptMaybe(q.withParent);
    KeptMaybe(q.withChildren);
    KeptMaybeJoin(q.withAccountGroups);
    Assemble(q);
  }

  // A call below the parent query, which may have grown.
  method EditParent(q: AccountQuery, path: seq<Edge>, call: Call)
    requires q.Valid()
    modifies q`Subs, q.Subs
    ensures q.Valid() && fresh(q.Subs - old(q.Subs))
    ensures q.Sel() == old(q.Sel()) && q.Edges() == EditEdges(old(q.Edges()), ToParent, path, call)
    decreases |path|, 4
  {
    hide AccountQuery.Valid, AccountQuery.Separate, AccountQuery.Edges, AccountValue, JoinValue, EntityValue;
    hide MaybeValid, MaybeValidJoin, AccountRepr, GroupsRepr, EntityRepr, EditMaybeAccounts;
    SmallerParts(q);
    EditMaybe(q.withParent, path, call);
    label Edited:
    q.Subs := q.Subs + AccountRepr(q.withParent);
    KeptMaybe@Edited(q.withParent);
    KeptEntity(q.withGroups);
    KeptEntity(q.withProxy);
    KeptEntity(q.withUsageLogs);
    KeptMaybe(q.withChildren);
    KeptMaybeJoin(q.withAccountGroups);
    Assemble(q);
  }

  method EditMaybe(q: AccountQuery?, path: seq<Edge>, call: Call)
    requires MaybeValid(q)
    modifies AccountRepr(q)
    ensures MaybeValid(q) && fresh(AccountRepr(q) - old(AccountRepr(q)))
    ensures AccountValue(q) == EditMaybeAccounts(old(AccountValue(q)), path, call)
    decreases |path|, 3
  {
    hide AccountQuery.Valid, AccountQuery.Separate, AccountQuery.Value, EditAccounts;
    if q != null {
      Edit(q, path, call);
    }
  }

  method EditChildren(q: AccountQuery, path: seq<Edge>, call: Call)
    requires q.Valid()
    modifies q`Subs, q.Subs
    ensures q.Valid() && fresh(q.Subs - old(q.Subs))
    ensures q.Sel() == old(q.Sel()) && q.Edges() == EditEdges(old(q.Edges()), ToChildren, path, call)
    decreases |path|, 4
  {
    hide AccountQuery.Valid, AccountQuery.Separate, AccountQuery.Edges, AccountValue, JoinValue, EntityValue;
    hide MaybeValid, MaybeValidJoin, AccountRepr, GroupsRepr, EntityRepr, EditMaybeAccounts;
    SmallerParts(q);
    EditMaybe(q.withChildren, path, call);
    label Edited:
    q.Subs := q.Subs + AccountRepr(q.withChildren);
    KeptMaybe@Edited(q.withChildren);
    KeptEntity(q.withGroups);
    KeptEntity(q.withProxy);
    KeptEntity(q.withUsageLogs);
    KeptMaybe(q.withParent);
    KeptMaybeJoin(q.withAccountGroups);
    Assemble(q);
  }

  method EditBelowJoins(q: AccountQuery, path: seq<Edge>, call: Call)
    requires q.Valid()
    modifies q`Subs, q.Subs
    ensures q.Valid() && fresh(q.Subs - old(q.Subs))
    ensures q.Sel() == old(q.Sel()) && q.Edges() == EditEdges(old(q.Edges()), ToAccountGroups, path, call)
    decreases |path|, 4
  {
    hide AccountQuery.Valid, AccountQuery.Separate, AccountQuery.Edges, AccountValue, JoinValue, EntityValue;
    hide MaybeValid, MaybeValidJoin, AccountRepr, GroupsRepr, EntityRepr, EditMaybeJoins;
    SmallerParts(q);
    EditMaybeJoin(q.withAccountGroups, path, call);
    label Edited:
    q.Subs := q.Subs + GroupsRepr(q.withAccountGroups);
    KeptMaybeJoin@Edited(q.withAccountGroups);
    KeptEntity(q.withGroups);
    KeptEntity(q.withProxy);
    KeptEntity(q.withUsageLogs);
    KeptMaybe(q.withParent);
    KeptMaybe(q.withChildren);
    Assemble(q);
  }

  method EditMaybeJoin(q: AccountGroupQuery?, path: seq<Edge>, call: Call)
    requires MaybeValidJoin(q)
    modifies GroupsRepr(q)
    ensures MaybeValidJoin(q) && fresh(GroupsRepr(q) - old(GroupsRepr(q)))
    ensures JoinValue(q) == EditMaybeJoins(old(JoinValue(q)), path, call)
    decreases |path|, 3
  {
    hide AccountGroupQuery.Valid, AccountGroupQuery.Value, EditJoins;
    if q != null {
      EditJoinQuery(q, path, call);
    }
  }

  // A call on the query that the path leads to from q. The footprint grows by the
  // new queries of a With method, and so do those of the queries above it.
  method Edit(q: AccountQuery, path: seq<Edge>, call: Call)
    requires q.Valid()
    modifies q.Repr()
    ensures q.Valid() && fresh(q.Repr() - old(q.Repr()))
    ensures q.Value() == EditAccounts(old(q.Value()), path, call)
    decreases |path|, 2
  {
    hide AccountQuery.Valid, AccountQuery.Separate, AccountQuery.Edges, EditSelection, RequestEdge, EditEdges;
    if |path| == 0 {
      EditRoot(q, call);
    } else {
      Outside(q);
      match path[0]
      case ToGroups | ToProxy | ToUsageLogs => EditLeaf(q, path[0], path[1..], call);
      case ToParent => EditParent(q, path[1..], call);
      case ToChildren => EditChildren(q, path[1..], call);
      case ToAccountGroups => EditBelowJoins(q, path[1..], call);
      case ToAccount | ToGroup => NoSuchEdge(q.Edges(), path[0], path[1..], call);
    }
  }

  lemma Outside(q: AccountQuery)
    requires q.Valid()
    ensures q !in q.Subs && q.ctx !in q.Subs
  {
  }

  lemma NoSuchEdge(e: EdgesQ, edge: Edge, path: seq<Edge>, call: Call)
    requires edge == ToAccount || edge == ToGroup
    ensures EditEdges(e, edge, path, call) == e
  {
  }

  // ---- join queries ----------------------------------------------------------------------------

  method CallJoins(q: AccountGroupQuery, call: Call)
    requires q.Valid() && !call.With?
    modifies q`predicates, q`order, q`modifiers, q.ctx
    ensures q.Valid() && q.Value() == old(q.Value()).(sel := EditSelection(old(q.Sel()), call)) && q.Subs == old(q.Subs)
  {
    hide AccountGroupQuery.Valid;
    match call
    case Where(p) => q.Where(p);
    case Limit(n) => q.Limit(n);
    case Offset(n) => q.Offset(n);
    case Order(o) => q.Order(o);
    case SelectFields(fields) => q.SelectFields(fields);
    case ForUpdate(lock) => q.ForUpdate(lock);
  }

  method EditJoinRoot(q: AccountGroupQuery, call: Call)
    requires q.Valid()
    modifies q, q.ctx
    ensures q.Valid() && fresh(q.Subs - old(q.Subs))
    ensures q.Value() == EditJoins(old(q.Value()), [], call)
  {
    hide AccountGroupQuery.Valid, AccountQuery.Valid, AccountQuery.Edges;
    if !call.With? {
      CallJoins(q, call);
    } else if call.edge == ToAccount {
      var query := new AccountQuery();
      KeptJoin(q);
      q.WithAccount(query);
    } else if call.edge == ToGroup {
      var query := new EntityQuery();
      KeptJoin(q);
      q.WithGroup(query);
    }
  }

  method EditBelowJoin(q: AccountGroupQuery, path: seq<Edge>, call: Call)
    requires q.Valid()
    modifies q`Subs, q.Subs
    ensures q.Valid() && fresh(q.Subs - old(q.Subs))
    ensures q.Value() == old(q.Value()).(account := EditMaybeAccounts(old(q.Value()).account, path, call))
    decreases |path|, 4
  {
    hide MaybeValid, AccountValue, EntityValue, AccountRepr, EntityRepr, AccountGroupQuery.Valid;
    hide AccountGroupQuery.Value;
    hide EditMaybeAccounts;
    SmallerAccount(q);
    EditMaybe(q.withAccount, path, call);
    label Edited:
    q.Subs := q.Subs + AccountRepr(q.withAccount);
    KeptMaybe@Edited(q.withAccount);
    KeptEntity(q.withGroup);
    AssembleJoin(q);
  }

  method EditGroupLeaf(q: AccountGroupQuery, path: seq<Edge>, call: Call)
    requires q.Valid()
    modifies q.Subs
    ensures q.Valid() && q.Subs == old(q.Subs)
    ensures q.Value() == old(q.Value()).(group := EditMaybeEntity(old(q.Value()).group, path, call))
  {
    hide MaybeValid, AccountValue, EntityValue, AccountRepr, EntityRepr, AccountGroupQuery.Valid;
    hide AccountGroupQuery.Value;
    hide EditMaybeEntity;
    SmallerAccount(q);
    CallMaybeEntity(q.withGroup, path, call);
    KeptMaybe(q.withAccount);
    AssembleJoin(q);
  }

  method EditJoinQuery(q: AccountGroupQuery, path: seq<Edge>, call: Call)
    requires q.Valid()
    modifies q.Repr()
    ensures q.Valid() && fresh(q.Repr() - old(q.Repr()))
    ensures q.Value() == EditJoins(old(q.Value()), path, call)
    decreases |path|, 2
  {
    hide EditMaybeAccounts, EditMaybeEntity, EditSelection, AccountGroupQuery.Valid, AccountGroupQuery.Value;
    if |path| == 0 {
      EditJoinRoot(q, call);
    } else if path[0] == ToAccount {
      EditBelowJoin(q, path[1..], call);
    } else if path[0] == ToGroup {
      EditGroupLeaf(q, path[1..], call);
    }
  }

  lemma AssembleJoin(q: AccountGroupQuery)
    requires q !in q.Subs && q.ctx !in q.Subs
    requires MaybeValid(q.withAccount) && AccountRepr(q.withAccount) + EntityRepr(q.withGroup) <= q.Subs
    requires AccountRepr(q.withAccount) !! EntityRepr(q.withGroup) && (q.withGroup != null ==> q.withGroup.joins == [])
    ensures q.Valid() && q.Value() == AccountGroupQ(q.Sel(), AccountValue(q.withAccount), EntityValue(q.withGroup))
  {
  }

  // ---- a clone and its original -------------------------------------------------------------------

  // A builder call on the clone or on the original, or on a query nested in it.
  datatype Step = Step(onClone: bool, path: seq<Edge>, call: Call)

  // The calls of one side only.
  function EditAll(q: AccountQ, steps: seq<Step>, onClone: bool): AccountQ {
    if steps == [] then q
    else
      var before, step := EditAll(q, steps[..|steps| - 1], onClone), steps[|steps| - 1];
      if step.onClone == onClone then EditAccounts(before, step.path, step.call) else before
  }

  // After Clone, any calls on either tree and its nested queries, in any order, leave
  // in each tree what its own calls say: no call is visible on the other side.
  method CloneThenEdit(q: AccountQuery, steps: seq<Step>) returns (c: AccountQuery)
    requires q.Valid()
    modifies q.Repr()
    ensures q.Valid() && c.Valid() && q.Repr() !! c.Repr()
    ensures q.Value() == EditAll(old(q.Value()), steps, false)
    ensures c.Value() == EditAll(CloneAccounts(old(q.Value())), steps, true)
  {
    hide AccountQuery.Valid, AccountQuery.Separate, AccountQuery.Value, EditAccounts, CloneAccounts;
    ghost var before := q.Value();
    c := q.Clone();
    Kept(q);
    for i := 0 to |steps|
      invariant q.Valid() && c.Valid() && q.Repr() !! c.Repr() && fresh(c.Repr()) && fresh(q.Repr() - old(q.Repr()))
      invariant q.Value() == EditAll(before, steps[..i], false)
      invariant c.Value() == EditAll(CloneAccounts(before), steps[..i], true)
    {
      label Step:
      assert steps[..i + 1][..i] == steps[..i];
      if steps[i].onClone {
        Edit(c, steps[i].path, steps[i].call);
        Kept@Step(q);
      } else {
        Edit(q, steps[i].path, steps[i].call);
        Kept@Step(c);
      }
    }
    assert steps[..|steps|] == steps;
  }
}
