// What one run of a query tree returns, as a function of the store: the batched
// form, which mirrors the loaders level by level, and the naive form, which
// joins every node on its own (backend/ent/account_query.go:550-844,
// backend/ent/accountgroup_query.go:334-436).
module EagerSpec {
  import opened Lists
  import opened Rows
  import opened Entities

  datatype Store = Store(accounts: Table, groups: Table, proxies: Table, usageLogs: Table, accountGroups: Table)

  predicate LeadsWithId(columns: seq<Column>) {
    columns != [] && columns[0] == Id
  }

  // Cells have the type of their column, account ids are not NULL, and every
  // table has the key columns its edges use, the groups their id in front.
  ghost predicate WellTyped(st: Store) {
    && (forall r :: r in st.accounts.rows ==> TypedRow(r) && CellOf(r, Id).IntCell?)
    && Known(st.accounts.columns)
    && Id in st.accounts.columns && ProxyId in st.accounts.columns && ParentAccountId in st.accounts.columns
    && LeadsWithId(st.groups.columns) && Id in st.proxies.columns
    && Id in st.usageLogs.columns && AccountId in st.usageLogs.columns
    && AccountId in st.accountGroups.columns && GroupId in st.accountGroups.columns
  }

  // ---- query trees as values ------------------------------------------------

  // A query on groups, proxies or usage logs. `joins` lists the id lists of the
  // join predicates that loadGroups has added so far.
  datatype EntityQ = EntityQ(sel: Selection, joins: seq<seq<int>>)

  datatype AccountQ = AccountQ(sel: Selection, edges: EdgesQ)

  datatype EdgesQ = EdgesQ(
    groups: Option<EntityQ>,
    proxy: Option<EntityQ>,
    parent: Option<AccountQ>,
    children: Option<AccountQ>,
    usageLogs: Option<EntityQ>,
    accountGroups: Option<AccountGroupQ>)
  {
    function LoadedTypes(): (r: seq<bool>)
      ensures |r| == 6
    {
      [groups.Some?, proxy.Some?, parent.Some?, children.Some?, usageLogs.Some?, accountGroups.Some?]
    }
  }

  datatype AccountGroupQ = AccountGroupQ(sel: Selection, account: Option<AccountQ>, group: Option<EntityQ>)
  {
    function LoadedTypes(): (r: seq<bool>)
      ensures |r| == 2
    {
      [account.Some?, group.Some?]
    }
  }

  // ---- the object graph, unfolded ---------------------------------------------

  datatype AccountTree = AccountTree(
    fields: Row,
    loadedTypes: seq<bool>,
    groups: seq<Row>,
    proxy: Option<Row>,
    parent: Option<AccountTree>,
    children: seq<AccountTree>,
    usageLogs: seq<Row>,
    accountGroups: seq<AccountGroupTree>)

  datatype AccountGroupTree = AccountGroupTree(
    fields: Row,
    loadedTypes: seq<bool>,
    account: Option<AccountTree>,
    group: Option<Row>)

  // ---- selected columns (querySpec) -------------------------------------------

  function NotId(): Column -> bool {
    (c: Column) => !c.Id?
  }

  function EntityColumns(all: seq<Column>, fields: seq<Column>): seq<Column> {
    if fields == [] then all else [Id] + Filter(NotId(), fields)
  }

  function MaybeOnce(columns: seq<Column>, wanted: bool, c: Column): seq<Column> {
    if wanted then AppendOnce(columns, c) else columns
  }

  function AccountColumns(all: seq<Column>, fields: seq<Column>, withProxy: bool, withParent: bool): seq<Column> {
    if fields == [] then all
    else MaybeOnce(MaybeOnce([Id] + Filter(NotId(), fields), withProxy, ProxyId), withParent, ParentAccountId)
  }

  function AccountGroupColumns(all: seq<Column>, fields: seq<Column>, withAccount: bool, withGroup: bool): seq<Column> {
    if fields == [] then all
    else MaybeOnce(MaybeOnce(fields, withAccount, AccountId), withGroup, GroupId)
  }

  function DecodeAll(columns: seq<Column>, rows: seq<Row>): (r: seq<Row>)
    ensures |r| == |rows| && forall i :: 0 <= i < |rows| ==> r[i] == Decode(columns, rows[i])
  {
    seq(|rows|, i requires 0 <= i < |rows| => Decode(columns, rows[i]))
  }

  // ---- distribution of batch results --------------------------------------------

  // Many-to-one: the last neighbour whose id is the key.
  function Linked<T>(key: Option<int>, ids: seq<int>, xs: seq<T>): Option<T>
    requires |ids| == |xs|
  {
    match key
    case None => None
    case Some(k) => var i := LastIndex(ids, k); if i < 0 then None else Some(xs[i])
  }

  function LinkAll<T>(keys: seq<Option<int>>, ids: seq<int>, xs: seq<T>): (r: seq<Option<T>>)
    requires |ids| == |xs|
    ensures |r| == |keys| && forall i :: 0 <= i < |keys| ==> r[i] == Linked(keys[i], ids, xs)
  {
    seq(|keys|, i requires 0 <= i < |keys| => Linked(keys[i], ids, xs))
  }

  function Is(id: int): int -> bool {
    (k: int) => k == id
  }

  // One-to-many: node i gets the neighbours that refer to its id, in order. When
  // several nodes share an id, the loaders' map keeps the last of them.
  function Fan<T>(owners: seq<int>, i: nat, fks: seq<int>, xs: seq<T>): seq<T>
    requires i < |owners| && |fks| == |xs|
  {
    if LastIndex(owners, owners[i]) == i then Picked(Is(owners[i]), fks, xs) else []
  }

  function FanAll<T>(owners: seq<int>, fks: seq<int>, xs: seq<T>): (r: seq<seq<T>>)
    requires |fks| == |xs|
    ensures |r| == |owners| && forall i :: 0 <= i < |owners| ==> r[i] == Fan(owners, i, fks, xs)
  {
    seq(|owners|, i requires 0 <= i < |owners| => Fan(owners, i, fks, xs))
  }

  // ---- the join of groups ---------------------------------------------------------

  // The ids of the accounts in `ids` that the join table links to group g, one
  // per join row.
  function LinksOf(joinRows: seq<Row>, g: Row, ids: seq<int>): seq<int> {
    if joinRows == [] then []
    else
      var ls, r := LinksOf(joinRows[..|joinRows| - 1], g, ids), joinRows[|joinRows| - 1];
      if Joins(r, g) && InValues(AccountId, ids)(r) then ls + [IntOf(r, AccountId)] else ls
  }

  predicate Joins(joinRow: Row, g: Row) {
    KeyOf(joinRow, GroupId).Some? && KeyOf(joinRow, GroupId) == KeyOf(g, Id)
  }

  // The rows of "groups JOIN account_groups", the groups in the given order.
  function JoinRows(joinRows: seq<Row>, groups: seq<Row>, ids: seq<int>): seq<(int, Row)> {
    if groups == [] then []
    else
      var g := groups[|groups| - 1];
      JoinRows(joinRows, groups[..|groups| - 1], ids) + Tagged(LinksOf(joinRows, g, ids), g)
  }

  function Tagged(outs: seq<int>, g: Row): (r: seq<(int, Row)>)
    ensures |r| == |outs| && forall i :: 0 <= i < |outs| ==> r[i] == (outs[i], g)
  {
    seq(|outs|, i requires 0 <= i < |outs| => (outs[i], g))
  }

  function Outs(pairs: seq<(int, Row)>): (r: seq<int>)
    ensures |r| == |pairs| && forall i :: 0 <= i < |pairs| ==> r[i] == pairs[i].0
  {
    seq(|pairs|, i requires 0 <= i < |pairs| => pairs[i].0)
  }

  function Ins(pairs: seq<(int, Row)>): (r: seq<Row>)
    ensures |r| == |pairs| && forall i :: 0 <= i < |pairs| ==> r[i] == pairs[i].1
  {
    seq(|pairs|, i requires 0 <= i < |pairs| => pairs[i].1)
  }

  // The positions whose value has not occurred before.
  function Firsts(gids: seq<int>): (r: seq<nat>)
    ensures forall j :: j in r ==> j < |gids|
  {
    if gids == [] then []
    else
      var n := |gids| - 1;
      if gids[n] in gids[..n] then Firsts(gids[..n]) else Firsts(gids[..n]) + [n]
  }

  // Group g was joined to account a by some row of the result.
  function MemberOf(outs: seq<int>, gids: seq<int>, a: int): int -> bool
    requires |outs| == |gids|
  {
    (g: int) => exists j :: 0 <= j < |gids| && gids[j] == g && outs[j] == a
  }

  // Many-to-many: account a gets, once each and in order of first appearance in
  // the whole result, the groups that some row joins to it.
  function Gather<T>(outs: seq<int>, gids: seq<int>, xs: seq<T>, a: int): seq<T>
    requires |outs| == |gids| == |xs|
  {
    Picked(MemberOf(outs, gids, a), At(gids, Firsts(gids)), At(xs, Firsts(gids)))
  }

  function GatherAll<T>(owners: seq<int>, outs: seq<int>, gids: seq<int>, xs: seq<T>): (r: seq<seq<T>>)
    requires |outs| == |gids| == |xs|
    ensures |r| == |owners|
    ensures forall i :: 0 <= i < |owners| ==>
              r[i] == if LastIndex(owners, owners[i]) == i then Gather(outs, gids, xs, owners[i]) else []
  {
    seq(|owners|, i requires 0 <= i < |owners| =>
      if LastIndex(owners, owners[i]) == i then Gather(outs, gids, xs, owners[i]) else [])
  }

  function GroupJoin(st: Store, sel: Selection, ids: seq<int>): seq<(int, Row)> {
    Page(sel.limit, sel.offset, JoinRows(st.accountGroups.rows, Sift(st.groups.rows, sel), ids))
  }

  // A row of the join that several predicates have made: the account id that each of
  // them selects, the latest first, and the group.
  type JoinedRow = (seq<int>, Row)

  function Unjoined(groups: seq<Row>): (r: seq<JoinedRow>)
    ensures |r| == |groups| && forall i :: 0 <= i < |groups| ==> r[i] == ([], groups[i])
  {
    seq(|groups|, i requires 0 <= i < |groups| => ([], groups[i]))
  }

  function Extended(row: JoinedRow, links: seq<int>): (r: seq<JoinedRow>)
    ensures |r| == |links| && forall i :: 0 <= i < |links| ==> r[i] == ([links[i]] + row.0, row.1)
  {
    seq(|links|, i requires 0 <= i < |links| => ([links[i]] + row.0, row.1))
  }

  // "... JOIN account_groups" once more, over the accounts in `ids`.
  function Joining(joinRows: seq<Row>, rows: seq<JoinedRow>, ids: seq<int>): seq<JoinedRow> {
    if rows == [] then []
    else
      var row := rows[|rows| - 1];
      Joining(joinRows, rows[..|rows| - 1], ids) + Extended(row, LinksOf(joinRows, row.1, ids))
  }

  function JoinedBy(joinRows: seq<Row>, groups: seq<Row>, joins: seq<seq<int>>): seq<JoinedRow> {
    if joins == [] then Unjoined(groups)
    else Joining(joinRows, JoinedBy(joinRows, groups, joins[..|joins| - 1]), joins[|joins| - 1])
  }

  // What a groups query returns when the predicate for `ids` joins those that earlier
  // runs have left in it.
  function JoinResult(st: Store, q: EntityQ, ids: seq<int>): seq<JoinedRow> {
    Page(q.sel.limit, q.sel.offset, JoinedBy(st.accountGroups.rows, Sift(st.groups.rows, q.sel), q.joins + [ids]))
  }

  // Every join predicate selects its account id in front of the columns so far.
  function Prefixed(k: nat, columns: seq<Column>): seq<Column> {
    Repeat(k, AccountId) + columns
  }

  function JoinedColumns(st: Store, q: EntityQ): seq<Column> {
    Prefixed(|q.joins| + 1, EntityColumns(st.groups.columns, q.sel.fields))
  }

  function JoinedCell(columns: seq<Column>, row: JoinedRow, j: nat): Cell
    requires j < |columns|
  {
    if j < |row.0| then IntCell(row.0[j]) else CellOf(row.1, columns[j])
  }

  // The scanned values of a row: an integer holder for the first column, and those of
  // the group's scanValues for all others.
  function JoinedValues(columns: seq<Column>, row: JoinedRow): (values: seq<Holder>)
    ensures |values| == |columns|
    ensures forall j :: 0 <= j < |columns| ==>
              values[j] == ScanInto(if j == 0 then IntKind else GroupKind(columns[j]), JoinedCell(columns, row, j))
  {
    seq(|columns|, j requires 0 <= j < |columns| =>
      ScanInto(if j == 0 then IntKind else GroupKind(columns[j]), JoinedCell(columns, row, j)))
  }

  // values[1].(*sql.NullInt64) holds.
  predicate AssertsInt(values: seq<Holder>) {
    |values| > 1 && values[1].NullInt64?
  }

  // The callback of the join panics on the first row whose second value is no integer holder.
  predicate JoinPanics(st: Store, q: EntityQ, ids: seq<int>) {
    var rows := JoinResult(st, q, ids);
    exists i :: 0 <= i < |rows| && !AssertsInt(JoinedValues(JoinedColumns(st, q), rows[i]))
  }

  // The account and the group of every row, as the callback reads them.
  function Pairs(rows: seq<JoinedRow>): (r: seq<(int, Row)>)
    ensures |r| == |rows| && forall i :: 0 <= i < |rows| ==> r[i] == (Owner(rows[i]), rows[i].1)
  {
    seq(|rows|, i requires 0 <= i < |rows| => (Owner(rows[i]), rows[i].1))
  }

  function Owner(row: JoinedRow): int {
    if row.0 == [] then 0 else row.0[0]
  }

  // ---- batched loading --------------------------------------------------------------

  ghost function GroupsFor(st: Store, q: EntityQ, ids: seq<int>): (r: seq<seq<Row>>)
    ensures |r| == |ids|
  {
    var pairs := Pairs(JoinResult(st, q, ids));
    var columns := EntityColumns(st.groups.columns, q.sel.fields);
    GatherAll(ids, Outs(pairs), Ints(Ins(pairs), Id), DecodeAll(columns, Ins(pairs)))
  }

  ghost function EntitiesFor(t: Table, q: EntityQ, keys: seq<Option<int>>): (r: seq<Option<Row>>)
    ensures |r| == |keys|
  {
    var rows := Select(t.rows, q.sel.Where(InValues(Id, Distinct(keys))));
    LinkAll(keys, Ints(rows, Id), DecodeAll(EntityColumns(t.columns, q.sel.fields), rows))
  }

  ghost function UsageLogsFor(st: Store, q: EntityQ, ids: seq<int>): (r: seq<seq<Row>>)
    ensures |r| == |ids|
  {
    var sel := q.sel.WithField(AccountId).Where(InValues(AccountId, ids));
    var rows := Select(st.usageLogs.rows, sel);
    FanAll(ids, Ints(rows, AccountId), DecodeAll(EntityColumns(st.usageLogs.columns, sel.fields), rows))
  }

  ghost function AccountsFor(st: Store, q: AccountQ, keys: seq<Option<int>>): (r: seq<Option<AccountTree>>)
    ensures |r| == |keys|
    decreases q
  {
    var rows := Select(st.accounts.rows, q.sel.Where(InValues(Id, Distinct(keys))));
    LinkAll(keys, Ints(rows, Id), Loaded(st, q.sel.fields, q.edges, rows))
  }

  ghost function ChildrenFor(st: Store, q: AccountQ, ids: seq<int>): (r: seq<seq<AccountTree>>)
    ensures |r| == |ids|
    decreases q
  {
    var sel := q.sel.WithField(ParentAccountId).Where(InValues(ParentAccountId, ids));
    var rows := Select(st.accounts.rows, sel);
    FanAll(ids, Ints(rows, ParentAccountId), Loaded(st, sel.fields, q.edges, rows))
  }

  ghost function AccountGroupsFor(st: Store, q: AccountGroupQ, ids: seq<int>): (r: seq<seq<AccountGroupTree>>)
    ensures |r| == |ids|
    decreases q, 2
  {
    var sel := q.sel.WithField(AccountId).Where(InValues(AccountId, ids));
    var rows := Select(st.accountGroups.rows, sel);
    FanAll(ids, Ints(rows, AccountId), LoadedGroups(st, sel.fields, q, rows))
  }

  function Somes(ids: seq<int>): (r: seq<Option<int>>)
    ensures |r| == |ids| && forall i :: 0 <= i < |ids| ==> r[i] == Some(ids[i])
  {
    seq(|ids|, i requires 0 <= i < |ids| => Some(ids[i]))
  }

  function Repeat<T>(n: nat, x: T): (r: seq<T>)
    ensures |r| == n && forall i :: 0 <= i < n ==> r[i] == x
  {
    if n == 0 then [] else Repeat(n - 1, x) + [x]
  }

  // The edges of the account rows `rows`; an edge that is not requested stays empty.

  ghost function GroupsEdge(st: Store, q: Option<EntityQ>, rows: seq<Row>): (r: seq<seq<Row>>)
    ensures |r| == |rows|
  {
    if q.None? then Repeat(|rows|, []) else GroupsFor(st, q.value, Ints(rows, Id))
  }

  ghost function EntityEdge(t: Table, q: Option<EntityQ>, keys: seq<Option<int>>): (r: seq<Option<Row>>)
    ensures |r| == |keys|
  {
    if q.None? then Repeat(|keys|, None) else EntitiesFor(t, q.value, keys)
  }

  ghost function AccountEdge(st: Store, q: Option<AccountQ>, keys: seq<Option<int>>): (r: seq<Option<AccountTree>>)
    ensures |r| == |keys|
    decreases q
  {
    if q.None? then Repeat(|keys|, None) else AccountsFor(st, q.value, keys)
  }

  ghost function ChildrenEdge(st: Store, q: Option<AccountQ>, rows: seq<Row>): (r: seq<seq<AccountTree>>)
    ensures |r| == |rows|
    decreases q
  {
    if q.None? then Repeat(|rows|, []) else ChildrenFor(st, q.value, Ints(rows, Id))
  }

  ghost function LogsEdge(st: Store, q: Option<EntityQ>, rows: seq<Row>): (r: seq<seq<Row>>)
    ensures |r| == |rows|
  {
    if q.None? then Repeat(|rows|, []) else UsageLogsFor(st, q.value, Ints(rows, Id))
  }

  ghost function JoinsEdge(st: Store, q: Option<AccountGroupQ>, rows: seq<Row>): (r: seq<seq<AccountGroupTree>>)
    ensures |r| == |rows|
    decreases q
  {
    if q.None? then Repeat(|rows|, []) else AccountGroupsFor(st, q.value, Ints(rows, Id))
  }

  // The account nodes of one sqlAll whose query returned `rows`.
  ghost function Loaded(st: Store, fields: seq<Column>, e: EdgesQ, rows: seq<Row>): (r: seq<AccountTree>)
    ensures |r| == |rows|
    ensures forall i :: 0 <= i < |rows| ==> r[i] == LoadedNode(st, fields, e, rows, i)
    decreases e, 1
  {
    seq(|rows|, i requires 0 <= i < |rows| => LoadedNode(st, fields, e, rows, i))
  }

  ghost function LoadedNode(st: Store, fields: seq<Column>, e: EdgesQ, rows: seq<Row>, i: nat): AccountTree
    requires i < |rows|
    decreases e, 0
  {
    AccountTree(
      Decode(AccountColumns(st.accounts.columns, fields, e.proxy.Some?, e.parent.Some?), rows[i]),
      e.LoadedTypes(),
      GroupsEdge(st, e.groups, rows)[i],
      EntityEdge(st.proxies, e.proxy, Keys(rows, ProxyId))[i],
      AccountEdge(st, e.parent, Keys(rows, ParentAccountId))[i],
      ChildrenEdge(st, e.children, rows)[i],
      LogsEdge(st, e.usageLogs, rows)[i],
      JoinsEdge(st, e.accountGroups, rows)[i])
  }

  // The join-table nodes of one sqlAll whose query returned `rows`.
  ghost function LoadedGroups(
    st: Store, fields: seq<Column>, q: AccountGroupQ, rows: seq<Row>): (r: seq<AccountGroupTree>)
    ensures |r| == |rows|
    ensures forall i :: 0 <= i < |rows| ==> r[i] == LoadedGroup(st, fields, q, rows, i)
    decreases q, 1
  {
    seq(|rows|, i requires 0 <= i < |rows| => LoadedGroup(st, fields, q, rows, i))
  }

  ghost function LoadedGroup(st: Store, fields: seq<Column>, q: AccountGroupQ, rows: seq<Row>, i: nat): AccountGroupTree
    requires i < |rows|
    decreases q, 0
  {
    AccountGroupTree(
      Decode(AccountGroupColumns(st.accountGroups.columns, fields, q.account.Some?, q.group.Some?), rows[i]),
      q.LoadedTypes(),
      AccountEdge(st, q.account, Somes(Ints(rows, AccountId)))[i],
      EntityEdge(st.groups, q.group, Somes(Ints(rows, GroupId)))[i])
  }

  ghost function AccountTrees(st: Store, q: AccountQ): seq<AccountTree> {
    Loaded(st, q.sel.fields, q.edges, Select(st.accounts.rows, q.sel))
  }

  // ---- errors and panics -----------------------------------------------------------------------

  datatype QueryError =
    | InvalidField(column: Column)
    | UnexpectedNode(id: int)
    | NilForeignKey(id: int)

  // How a run ends without nodes: it returns an error, or it panics, and nothing
  // between the callback and the caller recovers.
  datatype Stop = Returns(error: QueryError) | Panics

  function OrElse<E>(a: Option<E>, b: Option<E>): Option<E> {
    if a.Some? then a else b
  }

  // prepareQuery: the first selected field that is not a column.
  function FieldError(fields: seq<Column>, columns: seq<Column>): Option<Stop> {
    if fields == [] then None
    else
      var n := |fields| - 1;
      OrElse(FieldError(fields[..n], columns),
          if fields[n] in columns then None else Some(Returns(InvalidField(fields[n]))))
  }

  function GroupsError(st: Store, q: Option<EntityQ>, rows: seq<Row>): Option<Stop> {
    if q.None? then None else GroupsErrorFor(st, q.value, Ints(rows, Id))
  }

  function GroupsErrorFor(st: Store, q: EntityQ, ids: seq<int>): Option<Stop> {
    OrElse(FieldError(q.sel.fields, st.groups.columns), if JoinPanics(st, q, ids) then Some(Panics) else None)
  }

  function EntityError(t: Table, q: Option<EntityQ>, keys: seq<Option<int>>): Option<Stop> {
    if q.None? || Distinct(keys) == [] then None else FieldError(q.value.sel.fields, t.columns)
  }

  function LogsError(st: Store, q: Option<EntityQ>): Option<Stop> {
    if q.None? then None else FieldError(q.value.sel.WithField(AccountId).fields, st.usageLogs.columns)
  }

  function AccountError(st: Store, q: Option<AccountQ>, keys: seq<Option<int>>): Option<Stop>
    decreases q
  {
    if q.None? || Distinct(keys) == [] then None
    else RunError(st, q.value.sel.Where(InValues(Id, Distinct(keys))), q.value.edges)
  }

  function ChildrenError(st: Store, q: Option<AccountQ>, rows: seq<Row>): Option<Stop>
    decreases q
  {
    if q.None? then None
    else
      var sel := q.value.sel.WithField(ParentAccountId).Where(InValues(ParentAccountId, Ints(rows, Id)));
      RunError(st, sel, q.value.edges)
  }

  function JoinsError(st: Store, q: Option<AccountGroupQ>, rows: seq<Row>): Option<Stop>
    decreases q, 2
  {
    if q.None? then None
    else
      var sel := q.value.sel.WithField(AccountId).Where(InValues(AccountId, Ints(rows, Id)));
      RunGroupsError(st, sel, q.value)
  }

  // The error of one query and the loaders below it, in the order they run.
  function RunError(st: Store, sel: Selection, e: EdgesQ): Option<Stop>
    decreases e, 2
  {
    OrElse(FieldError(sel.fields, st.accounts.columns), EdgesError(st, e, Select(st.accounts.rows, sel)))
  }

  function EdgesError(st: Store, e: EdgesQ, rows: seq<Row>): Option<Stop>
    decreases e, 1
  {
    if rows == [] then None else EdgesErrorOf(st, e, rows)
  }

  function EdgesErrorOf(st: Store, e: EdgesQ, rows: seq<Row>): Option<Stop>
    decreases e, 0
  {
    OrElse(
      OrElse(GroupsError(st, e.groups, rows),
        OrElse(EntityError(st.proxies, e.proxy, Keys(rows, ProxyId)),
               AccountError(st, e.parent, Keys(rows, ParentAccountId)))),
      OrElse(ChildrenError(st, e.children, rows),
        OrElse(LogsError(st, e.usageLogs), JoinsError(st, e.accountGroups, rows))))
  }

  function RunGroupsError(st: Store, sel: Selection, q: AccountGroupQ): Option<Stop>
    decreases q, 1
  {
    OrElse(FieldError(sel.fields, st.accountGroups.columns), JoinEdgesError(st, q, Select(st.accountGroups.rows, sel)))
  }

  function JoinEdgesError(st: Store, q: AccountGroupQ, rows: seq<Row>): Option<Stop>
    decreases q, 0
  {
    if rows == [] then None
    else
      OrElse(AccountError(st, q.account, Somes(Ints(rows, AccountId))),
             EntityError(st.groups, q.group, Somes(Ints(rows, GroupId))))
  }

  // ---- what a run leaves in the query tree ------------------------------------------

  function AfterEntities(q: Option<EntityQ>, keys: seq<Option<int>>): Option<EntityQ> {
    if q.None? || Distinct(keys) == [] then q
    else Some(q.value.(sel := q.value.sel.Where(InValues(Id, Distinct(keys)))))
  }

  function AfterGroups(q: Option<EntityQ>, rows: seq<Row>): Option<EntityQ> {
    if q.None? then q else Some(q.value.(joins := q.value.joins + [Ints(rows, Id)]))
  }

  function AfterLogs(q: Option<EntityQ>, rows: seq<Row>): Option<EntityQ> {
    if q.None? then q
    else Some(q.value.(sel := q.value.sel.WithField(AccountId).Where(InValues(AccountId, Ints(rows, Id)))))
  }

  function AfterAccounts(st: Store, q: Option<AccountQ>, keys: seq<Option<int>>): Option<AccountQ>
    decreases q
  {
    if q.None? || Distinct(keys) == [] then q
    else Some(AfterRun(st, q.value.sel.Where(InValues(Id, Distinct(keys))), q.value.edges))
  }

  function AfterChildren(st: Store, q: Option<AccountQ>, rows: seq<Row>): Option<AccountQ>
    decreases q
  {
    if q.None? then q
    else
      var sel := q.value.sel.WithField(ParentAccountId).Where(InValues(ParentAccountId, Ints(rows, Id)));
      Some(AfterRun(st, sel, q.value.edges))
  }

  function AfterJoins(st: Store, q: Option<AccountGroupQ>, rows: seq<Row>): Option<AccountGroupQ>
    decreases q, 2
  {
    if q.None? then q
    else
      var sel := q.value.sel.WithField(AccountId).Where(InValues(AccountId, Ints(rows, Id)));
      Some(AfterRunGroups(st, sel, q.value))
  }

  function AfterRun(st: Store, sel: Selection, e: EdgesQ): AccountQ
    decreases e, 2
  {
    AccountQ(sel, AfterEdges(st, e, Select(st.accounts.rows, sel)))
  }

  function AfterEdges(st: Store, e: EdgesQ, rows: seq<Row>): EdgesQ
    decreases e, 1
  {
    if rows == [] then e else AfterEdgesOf(st, e, rows)
  }

  function AfterEdgesOf(st: Store, e: EdgesQ, rows: seq<Row>): EdgesQ
    decreases e, 0
  {
    EdgesQ(
      AfterGroups(e.groups, rows),
      AfterEntities(e.proxy, Keys(rows, ProxyId)),
      AfterAccounts(st, e.parent, Keys(rows, ParentAccountId)),
      AfterChildren(st, e.children, rows),
      AfterLogs(e.usageLogs, rows),
      AfterJoins(st, e.accountGroups, rows))
  }

  function AfterRunGroups(st: Store, sel: Selection, q: AccountGroupQ): AccountGroupQ
    decreases q, 1
  {
    AfterJoinEdges(st, sel, q, Select(st.accountGroups.rows, sel))
  }

  function AfterJoinEdges(st: Store, sel: Selection, q: AccountGroupQ, rows: seq<Row>): AccountGroupQ
    decreases q, 0
  {
    if rows == [] then q.(sel := sel)
    else
      AccountGroupQ(
        sel,
        AfterAccounts(st, q.account, Somes(Ints(rows, AccountId))),
        AfterEntities(q.group, Somes(Ints(rows, GroupId))))
  }
}
