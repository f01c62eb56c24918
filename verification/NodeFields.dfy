// Which fields the nodes of a run carry, in terms of the selected fields, the requested
// edges and the cells of the rows (backend/ent/account_query.go:866-880;
// backend/ent/accountgroup_query.go:456-467).
module NodeFields {
  import opened Lists
  import opened Rows
  import opened EagerSpec

  // A cell that leaves a value in its field: neither NULL nor a document without an object.
  predicate Stored(row: Row, c: Column) {
    && c in row && row[c] != Null
    && row[c] != JsonCell(Blank) && row[c] != JsonCell(Malformed) && row[c] != JsonCell(JsonNull)
  }

  // Every column of the table without a selection; else the id, the selected fields and
  // the keys of requested edges.
  predicate Chosen(all: seq<Column>, fields: seq<Column>, keys: set<Column>, c: Column) {
    if fields == [] then c in all else c == Id || c in fields || c in keys
  }

  // The same for join rows, which have no id of their own.
  predicate ChosenKeys(all: seq<Column>, fields: seq<Column>, keys: set<Column>, c: Column) {
    if fields == [] then c in all else c in fields || c in keys
  }

  function KeysOf(withProxy: bool, withParent: bool): set<Column> {
    (if withProxy then {ProxyId} else {}) + (if withParent then {ParentAccountId} else {})
  }

  function JoinKeysOf(withAccount: bool, withGroup: bool): set<Column> {
    (if withAccount then {AccountId} else {}) + (if withGroup then {GroupId} else {})
  }

  // A node has exactly the chosen fields of its row, with the values of the row.
  ghost predicate Copies(node: Row, row: Row, all: seq<Column>, fields: seq<Column>, keys: set<Column>) {
    forall c ::
      && (c in node <==> Chosen(all, fields, keys, c) && Stored(row, c))
      && (c in node ==> node[c] == row[c])
  }

  ghost predicate CopiesKeys(node: Row, row: Row, all: seq<Column>, fields: seq<Column>, keys: set<Column>) {
    forall c ::
      && (c in node <==> ChosenKeys(all, fields, keys, c) && Stored(row, c))
      && (c in node ==> node[c] == row[c])
  }

  lemma DecodeExactly(columns: seq<Column>, row: Row, c: Column)
    ensures c in Decode(columns, row) <==> c in columns && Stored(row, c)
    ensures c in Decode(columns, row) ==> c in row && Decode(columns, row)[c] == row[c]
  {
  }

  lemma WithoutId(fields: seq<Column>, c: Column)
    ensures c in [Id] + Filter(NotId(), fields) <==> c == Id || c in fields
  {
    FilterMembers(NotId(), fields);
    assert c in [Id] + Filter(NotId(), fields) <==> c == Id || c in Filter(NotId(), fields);
  }

  lemma MaybeOnceExactly(columns: seq<Column>, wanted: bool, d: Column, c: Column)
    ensures c in MaybeOnce(columns, wanted, d) <==> c in columns || (wanted && c == d)
  {
  }

  lemma AccountColumnsExactly(all: seq<Column>, fields: seq<Column>, withProxy: bool, withParent: bool, c: Column)
    ensures c in AccountColumns(all, fields, withProxy, withParent)
       <==> Chosen(all, fields, KeysOf(withProxy, withParent), c)
  {
    hide Filter, MaybeOnce;
    var base := [Id] + Filter(NotId(), fields);
    WithoutId(fields, c);
    MaybeOnceExactly(base, withProxy, ProxyId, c);
    MaybeOnceExactly(MaybeOnce(base, withProxy, ProxyId), withParent, ParentAccountId, c);
  }

  lemma JoinColumnsExactly(all: seq<Column>, fields: seq<Column>, withAccount: bool, withGroup: bool, c: Column)
    ensures c in AccountGroupColumns(all, fields, withAccount, withGroup)
       <==> ChosenKeys(all, fields, JoinKeysOf(withAccount, withGroup), c)
  {
    hide MaybeOnce;
    MaybeOnceExactly(fields, withAccount, AccountId, c);
    MaybeOnceExactly(MaybeOnce(fields, withAccount, AccountId), withGroup, GroupId, c);
  }

  // Nodes of a run of accounts, paged or not.
  lemma AccountFields(st: Store, fields: seq<Column>, withProxy: bool, withParent: bool, row: Row)
    ensures Copies(Decode(AccountColumns(st.accounts.columns, fields, withProxy, withParent), row), row,
                   st.accounts.columns, fields, KeysOf(withProxy, withParent))
  {
    hide Stored, Chosen, AccountColumns, Decode;
    var columns := AccountColumns(st.accounts.columns, fields, withProxy, withParent);
    forall c
      ensures c in Decode(columns, row)
         <==> Chosen(st.accounts.columns, fields, KeysOf(withProxy, withParent), c) && Stored(row, c)
      ensures c in Decode(columns, row) ==> c in row && Decode(columns, row)[c] == row[c]
    {
      DecodeExactly(columns, row, c);
      AccountColumnsExactly(st.accounts.columns, fields, withProxy, withParent, c);
    }
  }

  // Join rows.
  lemma JoinFields(st: Store, fields: seq<Column>, withAccount: bool, withGroup: bool, row: Row)
    ensures CopiesKeys(Decode(AccountGroupColumns(st.accountGroups.columns, fields, withAccount, withGroup), row),
                       row, st.accountGroups.columns, fields, JoinKeysOf(withAccount, withGroup))
  {
    hide Stored, ChosenKeys, AccountGroupColumns, Decode;
    var columns := AccountGroupColumns(st.accountGroups.columns, fields, withAccount, withGroup);
    forall c
      ensures c in Decode(columns, row)
         <==> ChosenKeys(st.accountGroups.columns, fields, JoinKeysOf(withAccount, withGroup), c) && Stored(row, c)
      ensures c in Decode(columns, row) ==> c in row && Decode(columns, row)[c] == row[c]
    {
      DecodeExactly(columns, row, c);
      JoinColumnsExactly(st.accountGroups.columns, fields, withAccount, withGroup, c);
    }
  }

  // Groups, proxies and usage logs.
  lemma EntityFields(all: seq<Column>, fields: seq<Column>, row: Row)
    ensures Copies(Decode(EntityColumns(all, fields), row), row, all, fields, {})
  {
    hide Stored, Decode, Filter;
    forall c
      ensures c in Decode(EntityColumns(all, fields), row) <==> Chosen(all, fields, {}, c) && Stored(row, c)
      ensures c in Decode(EntityColumns(all, fields), row) ==>
                c in row && Decode(EntityColumns(all, fields), row)[c] == row[c]
    {
      DecodeExactly(EntityColumns(all, fields), row, c);
      WithoutId(fields, c);
    }
  }
}
