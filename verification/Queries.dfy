// The query builders as mutable objects (backend/ent/account_query.go:21-69,
// 386-409, 411-475, 510-520, 866-919; backend/ent/accountgroup_query.go:19-61,
// 225-266, 456-501).
module Queries {
  import opened Lists
  import opened Rows
  import opened EagerSpec

  // ent's QueryContext: each builder owns one, and Clone copies it.
  class QueryContext {
    var Fields: seq<Column>
    var Limit: Option<nat>
    var Offset: Option<nat>

    constructor ()
      ensures Fields == [] && Limit == None && Offset == None
    {
      Fields, Limit, Offset := [], None, None;
    }

    method Clone() returns (c: QueryContext)
      ensures fresh(c) && c.Fields == Fields && c.Limit == Limit && c.Offset == Offset
    {
      c := new QueryContext();
      c.Fields, c.Limit, c.Offset := Fields, Limit, Offset;
    }

    method AppendFieldOnce(f: Column)
      modifies this`Fields
      ensures Fields == AppendOnce(old(Fields), f)
    {
      if f !in Fields {
        Fields := Fields + [f];
      }
    }
  }

  // GroupQuery, ProxyQuery and UsageLogQuery without their own edges.
  class EntityQuery {
    const ctx: QueryContext
    var predicates: seq<Predicate>
    var order: seq<OrderOption>
    var modifiers: seq<string>
    var joins: seq<seq<int>>

    constructor ()
      ensures fresh(ctx)
      ensures Value() == EntityQ(Selection([], [], [], None, None, []), [])
    {
      ctx := new QueryContext();
      predicates, order, modifiers, joins := [], [], [], [];
    }

    constructor Copy(q: EntityQuery)
      ensures fresh(ctx)
      ensures Value() == CloneEntity(q.Value())
    {
      var c := q.ctx.Clone();
      ctx := c;
      predicates, order, modifiers, joins := q.predicates, q.order, [], q.joins;
    }

    ghost function Value(): EntityQ
      reads this, ctx
    {
      EntityQ(Sel(), joins)
    }

    function Sel(): Selection
      reads this, ctx
    {
      Selection(predicates, order, ctx.Fields, ctx.Limit, ctx.Offset, modifiers)
    }

    method Where(p: Predicate)
      modifies this`predicates
      ensures Value() == old(Value()).(sel := old(Value()).sel.Where(p))
    {
      predicates := predicates + [p];
    }

    method Limit(n: nat)
      modifies ctx`Limit
      ensures Value() == old(Value()).(sel := old(Sel()).(limit := Some(n)))
    {
      ctx.Limit := Some(n);
    }

    method Offset(n: nat)
      modifies ctx`Offset
      ensures Value() == old(Value()).(sel := old(Sel()).(offset := Some(n)))
    {
      ctx.Offset := Some(n);
    }

    method Order(o: seq<OrderOption>)
      modifies this`order
      ensures Value() == old(Value()).(sel := old(Sel()).(order := old(order) + o))
    {
      order := order + o;
    }

    method SelectFields(fields: seq<Column>)
      modifies ctx`Fields
      ensures Value() == old(Value()).(sel := old(Sel()).(fields := old(ctx.Fields) + fields))
    {
      ctx.Fields := ctx.Fields + fields;
    }

    method ForUpdate(lock: string)
      modifies this`modifiers
      ensures Value() == old(Value()).(sel := old(Sel()).(modifiers := old(modifiers) + [lock]))
    {
      modifiers := modifiers + [lock];
    }

    method AddField(f: Column)
      modifies ctx
      ensures Value() == old(Value()).(sel := old(Value()).sel.WithField(f))
    {
      if |ctx.Fields| > 0 {
        ctx.AppendFieldOnce(f);
      }
    }

    // The predicate that loadGroups adds (account_query.go:638-646).
    method JoinAccounts(ids: seq<int>)
      modifies this`joins
      ensures Value() == old(Value()).(joins := old(Value()).joins + [ids])
    {
      joins := joins + [ids];
    }
  }

  // Clone copies everything but the modifiers.
  function CloneEntity(q: EntityQ): EntityQ {
    q.(sel := q.sel.(modifiers := []))
  }

  function CloneMaybeEntity(q: Option<EntityQ>): Option<EntityQ> {
    if q.None? then None else Some(CloneEntity(q.value))
  }

  function CloneAccounts(q: AccountQ): AccountQ
    decreases q, 1
  {
    AccountQ(q.sel.(modifiers := []), CloneEdges(q.edges))
  }

  function CloneMaybeAccount(q: Option<AccountQ>): Option<AccountQ>
    decreases q, 0
  {
    if q.None? then None else Some(CloneAccounts(q.value))
  }

  function CloneEdges(e: EdgesQ): EdgesQ
    decreases e, 0
  {
    EdgesQ(
      CloneMaybeEntity(e.groups), CloneMaybeEntity(e.proxy), CloneMaybeAccount(e.parent),
      CloneMaybeAccount(e.children), CloneMaybeEntity(e.usageLogs), CloneMaybeJoin(e.accountGroups))
  }

  function CloneGroups(q: AccountGroupQ): AccountGroupQ
    decreases q, 1
  {
    AccountGroupQ(q.sel.(modifiers := []), CloneMaybeAccount(q.account), CloneMaybeEntity(q.group))
  }

  function CloneMaybeJoin(q: Option<AccountGroupQ>): Option<AccountGroupQ>
    decreases q, 0
  {
    if q.None? then None else Some(CloneGroups(q.value))
  }

  // ---- footprints of optional subqueries ------------------------------------------

  function EntityRepr(q: EntityQuery?): set<object> {
    if q == null then {} else {q, q.ctx}
  }

  ghost function AccountRepr(q: AccountQuery?): set<object>
    reads if q == null then {} else {q}
  {
    if q == null then {} else q.Repr()
  }

  ghost function GroupsRepr(q: AccountGroupQuery?): set<object>
    reads if q == null then {} else {q}
  {
    if q == null then {} else q.Repr()
  }

  ghost function EntityValue(q: EntityQuery?): Option<EntityQ>
    reads q, if q == null then {} else {q.ctx}
  {
    if q == null then None else Some(q.Value())
  }

  class AccountQuery {
    const ctx: QueryContext
    var predicates: seq<Predicate>
    var order: seq<OrderOption>
    var modifiers: seq<string>
    var withGroups: EntityQuery?
    var withProxy: EntityQuery?
    var withParent: AccountQuery?
    var withChildren: AccountQuery?
    var withUsageLogs: EntityQuery?
    var withAccountGroups: AccountGroupQuery?
    // The objects of the subqueries.
    ghost var Subs: set<object>

    ghost function Repr(): set<object>
      reads this`Subs
    {
      {this, ctx} + Subs
    }

    // The subqueries lie in Subs and have disjoint footprints.
    ghost predicate Separate()
      reads this`Subs, this`withGroups, this`withProxy, this`withParent, this`withChildren,
            this`withUsageLogs, this`withAccountGroups, Subs
    {
      && this !in Subs && ctx !in Subs
      && EntityRepr(withGroups) <= Subs && EntityRepr(withProxy) <= Subs && EntityRepr(withUsageLogs) <= Subs
      && (withParent != null ==> withParent in Subs && withParent.Repr() <= Subs && withParent !in withParent.Subs)
      && (withChildren != null ==>
            withChildren in Subs && withChildren.Repr() <= Subs && withChildren !in withChildren.Subs)
      && (withAccountGroups != null ==>
            withAccountGroups in Subs && withAccountGroups.Repr() <= Subs
              && withAccountGroups !in withAccountGroups.Subs)
      && EntityRepr(withGroups) !! EntityRepr(withProxy) !! AccountRepr(withParent)
         !! AccountRepr(withChildren) !! EntityRepr(withUsageLogs) !! GroupsRepr(withAccountGroups)
    }

    // The query and its subqueries form a tree.
    ghost predicate Valid()
      reads this`Subs, this`withGroups, this`withProxy, this`withParent, this`withChildren,
            this`withUsageLogs, this`withAccountGroups, Subs
      decreases Subs
    {
      && Separate()
      && (withParent != null ==> withParent.Valid())
      && (withChildren != null ==> withChildren.Valid())
      && (withAccountGroups != null ==> withAccountGroups.Valid())
      && (withProxy != null ==> withProxy.joins == []) && (withUsageLogs != null ==> withUsageLogs.joins == [])
    }

    function Sel(): Selection
      reads this`predicates, this`order, this`modifiers, ctx
    {
      Selection(predicates, order, ctx.Fields, ctx.Limit, ctx.Offset, modifiers)
    }

    ghost function Edges(): EdgesQ
      requires Valid()
      reads this`Subs, this`withGroups, this`withProxy, this`withParent, this`withChildren,
            this`withUsageLogs, this`withAccountGroups, Subs
      decreases Subs, 0
    {
      EdgesQ(
        EntityValue(withGroups),
        EntityValue(withProxy),
        if withParent == null then None else Some(withParent.Value()),
        if withChildren == null then None else Some(withChildren.Value()),
        EntityValue(withUsageLogs),
        if withAccountGroups == null then None else Some(withAccountGroups.Value()))
    }

    ghost function Value(): AccountQ
      requires Valid()
      reads this, ctx, Subs
      decreases Subs, 1
    {
      AccountQ(Sel(), Edges())
    }

    // AccountClient.Query.
    constructor ()
      ensures Valid() && fresh(Repr())
      ensures Value() == AccountQ(Selection([], [], [], None, None, []), EdgesQ(None, None, None, None, None, None))
    {
      ctx := new QueryContext();
      predicates, order, modifiers := [], [], [];
      withGroups, withProxy, withParent := null, null, null;
      withChildren, withUsageLogs, withAccountGroups := null, null, null;
      Subs := {};
    }

    method Where(p: Predicate)
      requires Valid()
      modifies this`predicates
      ensures Valid() && Value() == AccountQ(old(Sel()).Where(p), old(Edges()))
    {
      predicates := predicates + [p];
    }

    method Limit(n: nat)
      requires Valid()
      modifies ctx`Limit
      ensures Valid() && Value() == AccountQ(old(Sel()).(limit := Some(n)), old(Edges()))
    {
      ctx.Limit := Some(n);
    }

    method Offset(n: nat)
      requires Valid()
      modifies ctx`Offset
      ensures Valid() && Value() == AccountQ(old(Sel()).(offset := Some(n)), old(Edges()))
    {
      ctx.Offset := Some(n);
    }

    method Order(o: seq<OrderOption>)
      requires Valid()
      modifies this`order
      ensures Valid() && Value() == AccountQ(old(Sel()).(order := old(order) + o), old(Edges()))
    {
      order := order + o;
    }

    method SelectFields(fields: seq<Column>)
      requires Valid()
      modifies ctx`Fields
      ensures Valid()
      ensures Value() == AccountQ(old(Sel()).(fields := old(ctx.Fields) + fields), old(Edges()))
    {
      ctx.Fields := ctx.Fields + fields;
    }

    method ForUpdate(lock: string)
      requires Valid()
      modifies this`modifiers
      ensures Valid() && Value() == AccountQ(old(Sel()).(modifiers := old(modifiers) + [lock]), old(Edges()))
    {
      modifiers := modifiers + [lock];
    }

    // The With methods, after the options have configured the new query: it replaces
    // the one that was there.

    method WithGroups(query: EntityQuery)
      requires Valid() && EntityRepr(query) !! Repr()
      modifies this`withGroups, this`Subs
      ensures Valid() && Subs == old(Subs) + EntityRepr(query)
      ensures Sel() == old(Sel()) && Edges() == old(Edges().(groups := Some(query.Value())))
    {
      hide Valid, Separate, Edges, Value, AccountValue, JoinValue, EntityValue, MaybeValid, MaybeValidJoin;
      hide AccountRepr, GroupsRepr, EntityRepr;
      SmallerParts(this);
      withGroups := query;
      Subs := Subs + EntityRepr(query);
      KeptMaybe(withParent);
      KeptMaybe(withChildren);
      KeptMaybeJoin(withAccountGroups);
      KeptEntity(query);
      Assemble(this);
    }

    method WithProxy(query: EntityQuery)
      requires Valid() && EntityRepr(query) !! Repr() && query.joins == []
      modifies this`withProxy, this`Subs
      ensures Valid() && Subs == old(Subs) + EntityRepr(query)
      ensures Sel() == old(Sel()) && Edges() == old(Edges().(proxy := Some(query.Value())))
    {
      hide Valid, Separate, Edges, Value, AccountValue, JoinValue, EntityValue, MaybeValid, MaybeValidJoin;
      hide AccountRepr, GroupsRepr, EntityRepr;
      SmallerParts(this);
      withProxy := query;
      Subs := Subs + EntityRepr(query);
      KeptMaybe(withParent);
      KeptMaybe(withChildren);
      KeptMaybeJoin(withAccountGroups);
      KeptEntity(query);
      Assemble(this);
    }

    method WithParent(query: AccountQuery)
      requires Valid() && query.Valid() && query.Repr() !! Repr()
      modifies this`withParent, this`Subs
      ensures Valid() && Subs == old(Subs + query.Repr())
      ensures Sel() == old(Sel()) && Edges() == old(Edges().(parent := Some(query.Value())))
    {
      hide Valid, Separate, Edges, Value, AccountValue, JoinValue, EntityValue, MaybeValid, MaybeValidJoin;
      hide AccountRepr, GroupsRepr, EntityRepr;
      SmallerParts(this);
      withParent := query;
      Subs := Subs + query.Repr();
      KeptTree(query);
      KeptMaybe(withChildren);
      KeptMaybeJoin(withAccountGroups);
      Assemble(this);
    }

    method WithChildren(query: AccountQuery)
      requires Valid() && query.Valid() && query.Repr() !! Repr()
      modifies this`withChildren, this`Subs
      ensures Valid() && Subs == old(Subs + query.Repr())
      ensures Sel() == old(Sel()) && Edges() == old(Edges().(children := Some(query.Value())))
    {
      hide Valid, Separate, Edges, Value, AccountValue, JoinValue, EntityValue, MaybeValid, MaybeValidJoin;
      hide AccountRepr, GroupsRepr, EntityRepr;
      SmallerParts(this);
      withChildren := query;
      Subs := Subs + query.Repr();
      KeptTree(query);
      KeptMaybe(withParent);
      KeptMaybeJoin(withAccountGroups);
      Assemble(this);
    }

    method WithUsageLogs(query: EntityQuery)
      requires Valid() && EntityRepr(query) !! Repr() && query.joins == []
      modifies this`withUsageLogs, this`Subs
      ensures Valid() && Subs == old(Subs) + EntityRepr(query)
      ensures Sel() == old(Sel()) && Edges() == old(Edges().(usageLogs := Some(query.Value())))
    {
      hide Valid, Separate, Edges, Value, AccountValue, JoinValue, EntityValue, MaybeValid, MaybeValidJoin;
      hide AccountRepr, GroupsRepr, EntityRepr;
      SmallerParts(this);
      withUsageLogs := query;
      Subs := Subs + EntityRepr(query);
      KeptMaybe(withParent);
      KeptMaybe(withChildren);
      KeptMaybeJoin(withAccountGroups);
      KeptEntity(query);
      Assemble(this);
    }

    method WithAccountGroups(query: AccountGroupQuery)
      requires Valid() && query.Valid() && query.Repr() !! Repr()
      modifies this`withAccountGroups, this`Subs
      ensures Valid() && Subs == old(Subs + query.Repr())
      ensures Sel() == old(Sel()) && Edges() == old(Edges().(accountGroups := Some(query.Value())))
    {
      hide Valid, Separate, Edges, Value, AccountValue, JoinValue, EntityValue, MaybeValid, MaybeValidJoin;
      hide AccountRepr, GroupsRepr, EntityRepr;
      SmallerParts(this);
      withAccountGroups := query;
      Subs := Subs + query.Repr();
      KeptJoinTree(query);
      KeptMaybe(withParent);
      KeptMaybe(withChildren);
      Assemble(this);
    }

    // &AccountQuery{...}: a query of the given parts, without modifiers. The objects
    // of the subqueries are those in S.
    constructor Of(
      ctx: QueryContext, order: seq<OrderOption>, predicates: seq<Predicate>, groups: EntityQuery?,
      proxy: EntityQuery?, parent: AccountQuery?, children: AccountQuery?, usageLogs: EntityQuery?,
      accountGroups: AccountGroupQuery?, ghost S: set<object>)
      requires ctx !in S && Parts(groups, proxy, parent, children, usageLogs, accountGroups)
      requires EntityRepr(groups) + EntityRepr(proxy) + EntityRepr(usageLogs) <= S
      requires AccountRepr(parent) + AccountRepr(children) + GroupsRepr(accountGroups) <= S
      ensures this.ctx == ctx && Subs == S
      ensures Valid() && Sel() == Selection(predicates, order, ctx.Fields, ctx.Limit, ctx.Offset, [])
      ensures Edges() == old(EdgesQ(
                EntityValue(groups), EntityValue(proxy), AccountValue(parent), AccountValue(children),
                EntityValue(usageLogs), JoinValue(accountGroups)))
    {
      hide Valid, Separate, Edges, AccountValue, JoinValue, EntityValue, AccountRepr, GroupsRepr, EntityRepr;
      hide MaybeValid, MaybeValidJoin;
      this.ctx, this.order, this.predicates, modifiers := ctx, order, predicates, [];
      withGroups, withProxy, withParent := groups, proxy, parent;
      withChildren, withUsageLogs, withAccountGroups := children, usageLogs, accountGroups;
      Subs := S;
      new;
      KeptMaybe(parent);
      KeptMaybe(children);
      KeptMaybeJoin(accountGroups);
      Assemble(this);
    }

    // The duplicate is a tree of new objects that denotes the same query without its
    // modifiers; the receiver is not touched.
    method Clone() returns (c: AccountQuery)
      requires Valid()
      ensures fresh(c) && fresh(c.ctx) && fresh(c.Subs) && c.Valid() && c.Value() == CloneAccounts(old(Value()))
      decreases Repr(), 1
    {
      hide Valid, Separate, Edges, AccountValue, JoinValue, EntityValue, MaybeValid, MaybeValidJoin;
      hide CloneMaybeEntity, CloneMaybeAccount, CloneMaybeJoin, AccountRepr, GroupsRepr, EntityRepr, Parts;
      SmallerParts(this);
      var copied := ctx.Clone();
      ghost var L;
      var groups, proxy, usageLogs;
      groups, proxy, usageLogs, L := CloneLeaves(withGroups, withProxy, withUsageLogs);
      Kept(this);
      SmallerParts(this);
      c := CloneWith(copied, groups, proxy, usageLogs, L);
    }

    // The rest of Clone, once the context and the leaf queries are copied.
    method CloneWith(
      copied: QueryContext, groups: EntityQuery?, proxy: EntityQuery?, usageLogs: EntityQuery?, ghost L: set<object>)
      returns (c: AccountQuery)
      requires MaybeValid(withParent) && MaybeValid(withChildren) && MaybeValidJoin(withAccountGroups)
      requires AccountRepr(withParent) + AccountRepr(withChildren) + GroupsRepr(withAccountGroups) < Repr()
      requires (proxy != null ==> proxy.joins == []) && (usageLogs != null ==> usageLogs.joins == [])
      requires EntityRepr(groups) + EntityRepr(proxy) + EntityRepr(usageLogs) <= L && copied !in L
      requires EntityRepr(groups) !! EntityRepr(proxy) !! EntityRepr(usageLogs)
      ensures fresh(c) && c.ctx == copied && fresh(c.Subs - L) && c.Valid()
      ensures c.Sel() == Selection(predicates, order, copied.Fields, copied.Limit, copied.Offset, [])
      ensures c.Edges() == old(EdgesQ(
                EntityValue(groups), EntityValue(proxy), CloneMaybeAccount(AccountValue(withParent)),
                CloneMaybeAccount(AccountValue(withChildren)), EntityValue(usageLogs),
                CloneMaybeJoin(JoinValue(withAccountGroups))))
      decreases Repr(), 0
    {
      hide Valid, Separate, Edges, AccountValue, JoinValue, EntityValue, MaybeValid, MaybeValidJoin;
      hide CloneMaybeEntity, CloneMaybeAccount, CloneMaybeJoin, AccountRepr, GroupsRepr, EntityRepr, Parts;
      ghost var T;
      var parent, children, accountGroups;
      parent, children, accountGroups, T := CloneTrees(withParent, withChildren, withAccountGroups);
      KeptEntity(groups);
      KeptEntity(proxy);
      KeptEntity(usageLogs);
      LeavesAndTrees(groups, proxy, usageLogs, L, parent, children, accountGroups, T);
      c := new AccountQuery.Of(
        copied, order, predicates, groups, proxy, parent, children, usageLogs, accountGroups, L + T);
    }

    // AppendFieldOnce as loadChildren guards it.
    method AddField(f: Column)
      requires Valid()
      modifies ctx
      ensures Valid() && Value() == AccountQ(old(Sel()).WithField(f), old(Edges()))
    {
      if |ctx.Fields| > 0 {
        ctx.AppendFieldOnce(f);
      }
    }
  }

  class AccountGroupQuery {
    const ctx: QueryContext
    var predicates: seq<Predicate>
    var order: seq<OrderOption>
    var modifiers: seq<string>
    var withAccount: AccountQuery?
    var withGroup: EntityQuery?
    ghost var Subs: set<object>

    ghost function Repr(): set<object>
      reads this`Subs
    {
      {this, ctx} + Subs
    }

    ghost predicate Valid()
      reads this`Subs, this`withAccount, this`withGroup, Subs
      decreases Subs
    {
      && this !in Subs && ctx !in Subs
      && EntityRepr(withGroup) <= Subs
      && (withAccount != null ==>
            withAccount in Subs && withAccount.Repr() <= Subs && withAccount !in withAccount.Subs
              && withAccount.Valid())
      && AccountRepr(withAccount) !! EntityRepr(withGroup)
      && (withGroup != null ==> withGroup.joins == [])
    }

    function Sel(): Selection
      reads this`predicates, this`order, this`modifiers, ctx
    {
      Selection(predicates, order, ctx.Fields, ctx.Limit, ctx.Offset, modifiers)
    }

    ghost function Value(): AccountGroupQ
      requires Valid()
      reads this, ctx, Subs
      decreases Subs, 1
    {
      AccountGroupQ(
        Sel(),
        if withAccount == null then None else Some(withAccount.Value()),
        EntityValue(withGroup))
    }

    // AccountGroupClient.Query.
    constructor ()
      ensures Valid() && fresh(Repr())
      ensures Value() == AccountGroupQ(Selection([], [], [], None, None, []), None, None)
    {
      ctx := new QueryContext();
      predicates, order, modifiers := [], [], [];
      withAccount, withGroup := null, null;
      Subs := {};
    }

    method Where(p: Predicate)
      requires Valid()
      modifies this`predicates
      ensures Valid() && Value() == old(Value()).(sel := old(Sel()).Where(p))
    {
      predicates := predicates + [p];
    }

    method Limit(n: nat)
      requires Valid()
      modifies ctx`Limit
      ensures Valid() && Value() == old(Value()).(sel := old(Sel()).(limit := Some(n)))
    {
      ctx.Limit := Some(n);
    }

    method Offset(n: nat)
      requires Valid()
      modifies ctx`Offset
      ensures Valid() && Value() == old(Value()).(sel := old(Sel()).(offset := Some(n)))
    {
      ctx.Offset := Some(n);
    }

    method Order(o: seq<OrderOption>)
      requires Valid()
      modifies this`order
      ensures Valid() && Value() == old(Value()).(sel := old(Sel()).(order := old(order) + o))
    {
      order := order + o;
    }

    method SelectFields(fields: seq<Column>)
      requires Valid()
      modifies ctx`Fields
      ensures Valid() && Value() == old(Value()).(sel := old(Sel()).(fields := old(ctx.Fields) + fields))
    {
      ctx.Fields := ctx.Fields + fields;
    }

    method ForUpdate(lock: string)
      requires Valid()
      modifies this`modifiers
      ensures Valid() && Value() == old(Value()).(sel := old(Sel()).(modifiers := old(modifiers) + [lock]))
    {
      modifiers := modifiers + [lock];
    }

    method WithAccount(query: AccountQuery)
      requires Valid() && query.Valid() && query.Repr() !! Repr()
      modifies this`withAccount, this`Subs
      ensures Valid() && Subs == old(Subs + query.Repr())
      ensures Value() == old(Value().(account := Some(query.Value())))
    {
      withAccount := query;
      Subs := Subs + query.Repr();
      KeptTree(query);
    }

    method WithGroup(query: EntityQuery)
      requires Valid() && EntityRepr(query) !! Repr() && query.joins == []
      modifies this`withGroup, this`Subs
      ensures Valid() && Subs == old(Subs) + EntityRepr(query)
      ensures Value() == old(Value().(group := Some(query.Value())))
    {
      withGroup := query;
      Subs := Subs + EntityRepr(query);
      KeptMaybe(withAccount);
    }

    // &AccountGroupQuery{...}: a query of the given parts, without modifiers.
    constructor Of(
      ctx: QueryContext, order: seq<OrderOption>, predicates: seq<Predicate>, account: AccountQuery?,
      group: EntityQuery?, ghost S: set<object>)
      requires ctx !in S && MaybeValid(account) && (group != null ==> group.joins == [])
      requires AccountRepr(account) + EntityRepr(group) <= S && AccountRepr(account) !! EntityRepr(group)
      ensures this.ctx == ctx && Subs == S && Valid()
      ensures Value() == AccountGroupQ(
                Selection(predicates, order, ctx.Fields, ctx.Limit, ctx.Offset, []), old(AccountValue(account)),
                old(EntityValue(group)))
    {
      this.ctx, this.order, this.predicates, modifiers := ctx, order, predicates, [];
      withAccount, withGroup := account, group;
      Subs := S;
      new;
      KeptMaybe(account);
    }

    method Clone() returns (c: AccountGroupQuery)
      requires Valid()
      ensures fresh(c) && fresh(c.ctx) && fresh(c.Subs) && c.Valid() && c.Value() == CloneGroups(old(Value()))
      decreases Repr(), 0
    {
      hide Valid, Value, AccountValue, EntityValue, MaybeValid, CloneMaybeAccount, CloneMaybeEntity, AccountRepr;
      hide EntityRepr;
      SmallerAccount(this);
      ghost var A, G;
      var copied := ctx.Clone();
      var account, group;
      account, A := CloneMaybeAccounts(withAccount);
      label Between:
      group, G := CloneMaybe(withGroup);
      KeptMaybe@Between(account);
      c := new AccountGroupQuery.Of(copied, order, predicates, account, group, A + G);
    }

    method AddField(f: Column)
      requires Valid()
      modifies ctx
      ensures Valid() && Value() == old(Value()).(sel := old(Sel()).WithField(f))
    {
      if |ctx.Fields| > 0 {
        ctx.AppendFieldOnce(f);
      }
    }
  }

  ghost predicate MaybeValid(q: AccountQuery?)
    reads if q == null then {} else {q}, if q == null then {} else q.Subs
  {
    q != null ==> q.Valid()
  }

  ghost function AccountValue(q: AccountQuery?): Option<AccountQ>
    requires MaybeValid(q)
    reads if q == null then {} else {q, q.ctx}, if q == null then {} else q.Subs
  {
    if q == null then None else Some(q.Value())
  }

  ghost predicate MaybeValidJoin(q: AccountGroupQuery?)
    reads if q == null then {} else {q}, if q == null then {} else q.Subs
  {
    q != null ==> q.Valid()
  }

  ghost function JoinValue(q: AccountGroupQuery?): Option<AccountGroupQ>
    requires MaybeValidJoin(q)
    reads if q == null then {} else {q, q.ctx}, if q == null then {} else q.Subs
  {
    if q == null then None else Some(q.Value())
  }

  // ---- Clone of the subqueries -----------------------------------------------------------

  // Each method also returns a set of new objects that holds the duplicates.

  method CloneMaybe(q: EntityQuery?) returns (c: EntityQuery?, ghost R: set<object>)
    ensures fresh(R) && EntityRepr(c) <= R && EntityValue(c) == CloneMaybeEntity(old(EntityValue(q)))
    ensures (c == null <==> q == null) && (q != null && q.joins == [] ==> c.joins == [])
  {
    c := null;
    if q != null {
      c := new EntityQuery.Copy(q);
    }
    R := EntityRepr(c);
  }

  method CloneMaybeAccounts(q: AccountQuery?) returns (c: AccountQuery?, ghost R: set<object>)
    requires MaybeValid(q)
    ensures fresh(R) && AccountRepr(c) <= R && MaybeValid(c)
              && AccountValue(c) == CloneMaybeAccount(old(AccountValue(q)))
    decreases AccountRepr(q), 2
  {
    hide AccountQuery.Valid, AccountQuery.Value, CloneAccounts;
    c := null;
    if q != null {
      c := q.Clone();
    }
    R := AccountRepr(c);
  }

  method CloneMaybeGroups(q: AccountGroupQuery?) returns (c: AccountGroupQuery?, ghost R: set<object>)
    requires MaybeValidJoin(q)
    ensures fresh(R) && GroupsRepr(c) <= R && MaybeValidJoin(c) && JoinValue(c) == CloneMaybeJoin(old(JoinValue(q)))
    decreases GroupsRepr(q), 1
  {
    hide AccountGroupQuery.Valid, AccountGroupQuery.Value, CloneGroups;
    c := null;
    if q != null {
      c := q.Clone();
    }
    R := GroupsRepr(c);
  }

  method CloneLeaves(groups: EntityQuery?, proxy: EntityQuery?, usageLogs: EntityQuery?)
    returns (g: EntityQuery?, p: EntityQuery?, u: EntityQuery?, ghost R: set<object>)
    requires (proxy != null ==> proxy.joins == []) && (usageLogs != null ==> usageLogs.joins == [])
    ensures fresh(R) && EntityRepr(g) + EntityRepr(p) + EntityRepr(u) <= R
    ensures EntityRepr(g) !! EntityRepr(p) !! EntityRepr(u)
    ensures EntityValue(g) == CloneMaybeEntity(old(EntityValue(groups)))
    ensures EntityValue(p) == CloneMaybeEntity(old(EntityValue(proxy))) && (p != null ==> p.joins == [])
    ensures EntityValue(u) == CloneMaybeEntity(old(EntityValue(usageLogs))) && (u != null ==> u.joins == [])
  {
    ghost var G, P, U;
    g, G := CloneMaybe(groups);
    p, P := CloneMaybe(proxy);
    u, U := CloneMaybe(usageLogs);
    R := G + P + U;
  }

  method CloneTrees(parent: AccountQuery?, children: AccountQuery?, joins: AccountGroupQuery?)
    returns (p: AccountQuery?, c: AccountQuery?, j: AccountGroupQuery?, ghost R: set<object>)
    requires MaybeValid(parent) && MaybeValid(children) && MaybeValidJoin(joins)
    ensures fresh(R) && AccountRepr(p) + AccountRepr(c) + GroupsRepr(j) <= R
    ensures AccountRepr(p) !! AccountRepr(c) !! GroupsRepr(j)
    ensures MaybeValid(p) && AccountValue(p) == CloneMaybeAccount(old(AccountValue(parent)))
    ensures MaybeValid(c) && AccountValue(c) == CloneMaybeAccount(old(AccountValue(children)))
    ensures MaybeValidJoin(j) && JoinValue(j) == CloneMaybeJoin(old(JoinValue(joins)))
    decreases AccountRepr(parent) + AccountRepr(children) + GroupsRepr(joins), 3
  {
    hide AccountValue, JoinValue, MaybeValid, MaybeValidJoin, AccountRepr, GroupsRepr;
    ghost var P, C, J;
    p, P := CloneMaybeAccounts(parent);
    c, C := CloneMaybeAccounts(children);
    j, J := CloneMaybeGroups(joins);
    R := P + C + J;
  }

  // The subqueries of a tree are smaller trees.
  lemma SmallerParts(query: AccountQuery)
    requires query.Valid()
    ensures MaybeValid(query.withParent) && MaybeValid(query.withChildren) && MaybeValidJoin(query.withAccountGroups)
    ensures AccountRepr(query.withParent) + AccountRepr(query.withChildren)
              + GroupsRepr(query.withAccountGroups) < query.Repr()
    ensures query !in query.Subs && query.ctx !in query.Subs
    ensures Parts(query.withGroups, query.withProxy, query.withParent, query.withChildren, query.withUsageLogs,
                query.withAccountGroups)
    ensures EntityRepr(query.withGroups) + EntityRepr(query.withProxy) + EntityRepr(query.withUsageLogs) <= query.Subs
    ensures AccountRepr(query.withParent) + AccountRepr(query.withChildren)
              + GroupsRepr(query.withAccountGroups) <= query.Subs
    ensures query.withProxy != null ==> query.withProxy.joins == []
    ensures query.withUsageLogs != null ==> query.withUsageLogs.joins == []
    ensures query.Edges() == EdgesQ(
              EntityValue(query.withGroups), EntityValue(query.withProxy), AccountValue(query.withParent),
              AccountValue(query.withChildren), EntityValue(query.withUsageLogs), JoinValue(query.withAccountGroups))
  {
  }

  lemma SmallerAccount(query: AccountGroupQuery)
    requires query.Valid()
    ensures query !in query.Subs && query.ctx !in query.Subs
    ensures MaybeValid(query.withAccount) && AccountRepr(query.withAccount) < query.Repr()
    ensures AccountRepr(query.withAccount) + EntityRepr(query.withGroup) <= query.Subs
    ensures AccountRepr(query.withAccount) !! EntityRepr(query.withGroup)
    ensures query.withGroup != null ==> query.withGroup.joins == []
    ensures query.Value() == AccountGroupQ(query.Sel(), AccountValue(query.withAccount), EntityValue(query.withGroup))
  {
  }

  // Six optional subqueries that are trees with disjoint footprints.
  ghost predicate Parts(
    groups: EntityQuery?, proxy: EntityQuery?, parent: AccountQuery?, children: AccountQuery?,
    usageLogs: EntityQuery?, accountGroups: AccountGroupQuery?)
    reads proxy, usageLogs
    reads if parent == null then {} else {parent}, if parent == null then {} else parent.Subs
    reads if children == null then {} else {children}, if children == null then {} else children.Subs
    reads if accountGroups == null then {} else {accountGroups}
    reads if accountGroups == null then {} else accountGroups.Subs
  {
    && MaybeValid(parent) && MaybeValid(children) && MaybeValidJoin(accountGroups)
    && (proxy != null ==> proxy.joins == []) && (usageLogs != null ==> usageLogs.joins == [])
    && EntityRepr(groups) !! EntityRepr(proxy) !! AccountRepr(parent)
       !! AccountRepr(children) !! EntityRepr(usageLogs) !! GroupsRepr(accountGroups)
  }

  lemma LeavesAndTrees(
    groups: EntityQuery?, proxy: EntityQuery?, usageLogs: EntityQuery?, L: set<object>, parent: AccountQuery?,
    children: AccountQuery?, accountGroups: AccountGroupQuery?, T: set<object>)
    requires MaybeValid(parent) && MaybeValid(children) && MaybeValidJoin(accountGroups)
    requires (proxy != null ==> proxy.joins == []) && (usageLogs != null ==> usageLogs.joins == [])
    requires EntityRepr(groups) + EntityRepr(proxy) + EntityRepr(usageLogs) <= L
    requires AccountRepr(parent) + AccountRepr(children) + GroupsRepr(accountGroups) <= T
    requires EntityRepr(groups) !! EntityRepr(proxy) !! EntityRepr(usageLogs)
    requires AccountRepr(parent) !! AccountRepr(children) !! GroupsRepr(accountGroups)
    requires L !! T
    ensures Parts(groups, proxy, parent, children, usageLogs, accountGroups)
  {
    hide AccountRepr, GroupsRepr, EntityRepr, MaybeValid, MaybeValidJoin;
  }

  // A query over its own parts is a tree.
  lemma Assemble(query: AccountQuery)
    requires Parts(query.withGroups, query.withProxy, query.withParent, query.withChildren, query.withUsageLogs,
                 query.withAccountGroups)
    requires query !in query.Subs && query.ctx !in query.Subs
    requires EntityRepr(query.withGroups) + EntityRepr(query.withProxy) + EntityRepr(query.withUsageLogs) <= query.Subs
    requires AccountRepr(query.withParent) + AccountRepr(query.withChildren)
               + GroupsRepr(query.withAccountGroups) <= query.Subs
    ensures query.Valid()
    ensures query.Edges() == EdgesQ(
              EntityValue(query.withGroups), EntityValue(query.withProxy), AccountValue(query.withParent),
              AccountValue(query.withChildren), EntityValue(query.withUsageLogs), JoinValue(query.withAccountGroups))
  {
  }

  // ---- frames: a query tree none of whose objects has changed is the same tree ---------

  twostate lemma Kept(query: AccountQuery)
    requires old(query.Valid())
    requires unchanged(query, query.ctx) && unchanged(old(query.Subs))
    ensures query.Valid() && query.Value() == old(query.Value())
  {
  }

  twostate lemma KeptJoin(query: AccountGroupQuery)
    requires old(query.Valid())
    requires unchanged(query, query.ctx) && unchanged(old(query.Subs))
    ensures query.Valid() && query.Value() == old(query.Value())
  {
  }

  twostate lemma KeptEntity(query: EntityQuery?)
    requires unchanged(EntityRepr(query))
    ensures EntityValue(query) == old(EntityValue(query)) && (query != null ==> query.joins == old(query.joins))
    ensures query != null ==> EntityValue(query) == old(Some(query.Value()))
  {
  }

  twostate lemma KeptTree(query: AccountQuery)
    requires old(query.Valid()) && unchanged(old(query.Repr()))
    ensures MaybeValid(query) && AccountValue(query) == Some(old(query.Value()))
              && AccountRepr(query) == old(query.Repr())
  {
  }

  twostate lemma KeptJoinTree(query: AccountGroupQuery)
    requires old(query.Valid()) && unchanged(old(query.Repr()))
    ensures MaybeValidJoin(query) && JoinValue(query) == Some(old(query.Value()))
              && GroupsRepr(query) == old(query.Repr())
  {
  }

  twostate lemma KeptMaybe(query: AccountQuery?)
    requires old(MaybeValid(query)) && unchanged(old(AccountRepr(query)))
    ensures MaybeValid(query) && AccountValue(query) == old(AccountValue(query))
    ensures AccountRepr(query) == old(AccountRepr(query)) && (query != null ==> query.Subs == old(query.Subs))
  {
  }

  twostate lemma KeptMaybeJoin(query: AccountGroupQuery?)
    requires old(MaybeValidJoin(query)) && unchanged(old(GroupsRepr(query)))
    ensures MaybeValidJoin(query) && JoinValue(query) == old(JoinValue(query))
    ensures GroupsRepr(query) == old(GroupsRepr(query)) && (query != null ==> query.Subs == old(query.Subs))
  {
  }
}
