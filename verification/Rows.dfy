// The store as the query builders see it: finite tables of rows, and a query
// that filters, sorts stably and pages them (backend/ent/account_query.go,
// querySpec and the unseen sqlgraph.QueryNodes behind it).
module Rows {
  import opened Lists

  // A byte slice as json.Unmarshal reads it when its target is a map: nothing to
  // read, text that is not an object, null, or the members of an object.
  datatype Json = Blank | Malformed | JsonNull | JsonObject(members: map<string, string>)

  datatype Cell =
    | Null
    | IntCell(i: int)
    | RealCell(r: real)
    | BoolCell(b: bool)
    | StringCell(s: string)
    | TimeCell(t: int)
    | JsonCell(doc: Json)

  // The columns of the accounts table (backend/ent/account/account.go:15-79), the
  // two keys of the join table, and any other name.
  datatype Column =
    | Id | CreatedAt | UpdatedAt | DeletedAt | Name | Notes | Platform | Type
    | Credentials | Extra | ProxyId | ProxyFallbackOriginId | Concurrency
    | LoadFactor | Priority | RateMultiplier | Status | ErrorMessage | LastUsedAt
    | ExpiresAt | AutoPauseOnExpired | Schedulable | RateLimitedAt
    | RateLimitResetAt | OverloadUntil | TempUnschedulableUntil
    | TempUnschedulableReason | SessionWindowStart | SessionWindowEnd
    | SessionWindowStatus | ParentAccountId | QuotaDimension
    | AccountId | GroupId
    | Other(name: string)

  type Row = map<Column, Cell>

  // The value of an integer column, 0 for NULL or an absent column, as a Go
  // int64 field reads.
  function IntOf(row: Row, column: Column): int {
    if column in row && row[column].IntCell? then row[column].i else 0
  }

  // The value of a nillable integer column.
  function KeyOf(row: Row, column: Column): Option<int> {
    if column in row && row[column].IntCell? then Some(row[column].i) else None
  }

  function Ints(rows: seq<Row>, column: Column): (r: seq<int>)
    ensures |r| == |rows| && forall i :: 0 <= i < |rows| ==> r[i] == IntOf(rows[i], column)
  {
    seq(|rows|, i requires 0 <= i < |rows| => IntOf(rows[i], column))
  }

  function Keys(rows: seq<Row>, column: Column): (r: seq<Option<int>>)
    ensures |r| == |rows| && forall i :: 0 <= i < |rows| ==> r[i] == KeyOf(rows[i], column)
  {
    seq(|rows|, i requires 0 <= i < |rows| => KeyOf(rows[i], column))
  }

  // A cell that scanning stores in a new entity: not NULL, and no JSON that leaves
  // its map nil.
  predicate Present(cell: Cell) {
    cell != Null && (cell.JsonCell? ==> cell.doc.JsonObject?)
  }

  // What a scanned row leaves in an entity: the present cells of the selected columns.
  function Decode(columns: seq<Column>, row: Row): Row {
    map c | c in columns && c in row && Present(row[c]) :: row[c]
  }

  datatype Table = Table(columns: seq<Column>, rows: seq<Row>)

  type Predicate = Row -> bool
  type OrderOption = Row -> int

  // predicate.IDIn and sql.InValues over one column: NULL matches nothing.
  function InValues(column: Column, keys: seq<int>): Predicate {
    (row: Row) => column in row && row[column].IntCell? && row[column].i in keys
  }

  function Equals(column: Column, key: int): Predicate {
    (row: Row) => column in row && row[column].IntCell? && row[column].i == key
  }

  // The part of a query builder that selects rows and columns. A limit or an
  // offset of 0 is the same as none: querySpec copies it into an int whose zero
  // value means "not set".
  datatype Selection = Selection(
    predicates: seq<Predicate>,
    order: seq<OrderOption>,
    fields: seq<Column>,
    limit: Option<nat>,
    offset: Option<nat>,
    modifiers: seq<string>)
  {
    function Where(p: Predicate): Selection {
      this.(predicates := predicates + [p])
    }

    // QueryContext.AppendFieldOnce under the loaders' guard: an empty list
    // already means every column.
    function WithField(f: Column): Selection {
      if fields == [] then this else this.(fields := AppendOnce(fields, f))
    }

    predicate FromStart() {
      offset == None || offset == Some(0)
    }

    predicate Unpaged() {
      (limit == None || limit == Some(0)) && FromStart()
    }
  }

  predicate Satisfies(row: Row, ps: seq<Predicate>) {
    forall i :: 0 <= i < |ps| ==> ps[i](row)
  }

  function Matching(ps: seq<Predicate>): Predicate {
    (row: Row) => Satisfies(row, ps)
  }

  function Page<T>(limit: Option<nat>, offset: Option<nat>, rows: seq<T>): seq<T> {
    var skipped :=
      match offset
      case None => rows
      case Some(n) => if n <= |rows| then rows[n..] else [];
    match limit
    case None => skipped
    case Some(n) => if n == 0 || |skipped| <= n then skipped else skipped[..n]
  }

  function Sift(rows: seq<Row>, sel: Selection): seq<Row> {
    Sort(sel.order, Filter(Matching(sel.predicates), rows))
  }

  // The rows a query returns.
  function Select(rows: seq<Row>, sel: Selection): seq<Row> {
    Page(sel.limit, sel.offset, Sift(rows, sel))
  }

  lemma PageMembers<T>(limit: Option<nat>, offset: Option<nat>, rows: seq<T>)
    ensures forall x :: x in Page(limit, offset, rows) ==> x in rows
  {
  }

  lemma SelectMembers(rows: seq<Row>, sel: Selection)
    ensures forall r :: r in Select(rows, sel) ==> r in rows && Satisfies(r, sel.predicates)
  {
    var f := Filter(Matching(sel.predicates), rows);
    FilterMembers(Matching(sel.predicates), rows);
    SortSorted(sel.order, f);
    PageMembers(sel.limit, sel.offset, Sift(rows, sel));
    forall r | r in Select(rows, sel)
      ensures r in rows && Satisfies(r, sel.predicates)
    {
      assert r in multiset(Sift(rows, sel));
      assert r in f;
    }
  }

  // Without paging a query returns exactly the rows that satisfy its predicates.
  lemma SelectExactly(rows: seq<Row>, sel: Selection)
    requires sel.Unpaged()
    ensures forall r :: r in Select(rows, sel) <==> r in rows && Satisfies(r, sel.predicates)
  {
    var f := Filter(Matching(sel.predicates), rows);
    FilterMembers(Matching(sel.predicates), rows);
    SortSorted(sel.order, f);
    assert Select(rows, sel) == Sift(rows, sel);
    forall r
      ensures r in Sift(rows, sel) <==> r in f
    {
      assert r in Sift(rows, sel) <==> r in multiset(Sift(rows, sel));
    }
  }

  lemma SelectWhere(rows: seq<Row>, sel: Selection, p: Predicate)
    requires sel.Unpaged()
    ensures forall r :: r in Select(rows, sel.Where(p)) <==> r in rows && Satisfies(r, sel.predicates) && p(r)
  {
    SelectExactly(rows, sel.Where(p));
    forall r: Row
      ensures Satisfies(r, sel.Where(p).predicates) <==> Satisfies(r, sel.predicates) && p(r)
    {
      SatisfiesSnoc(r, sel.predicates, p);
    }
  }

  lemma SelectSatisfies(rows: seq<Row>, sel: Selection, p: Predicate)
    ensures forall r :: r in Select(rows, sel.Where(p)) ==> r in rows && p(r)
  {
    SelectMembers(rows, sel.Where(p));
    forall r | r in Select(rows, sel.Where(p))
      ensures p(r)
    {
      assert (sel.predicates + [p])[|sel.predicates|](r);
    }
  }

  // The rows of a batch have one of the keys it was requested for.
  lemma BatchKeys(rows: seq<Row>, sel: Selection, c: Column, ids: seq<int>)
    ensures var batch := Select(rows, sel.Where(InValues(c, ids)));
            forall k :: 0 <= k < |batch| ==> KeyOf(batch[k], c).Some? && Ints(batch, c)[k] in ids
  {
    hide Select;
    var batch := Select(rows, sel.Where(InValues(c, ids)));
    SelectSatisfies(rows, sel, InValues(c, ids));
    forall k | 0 <= k < |batch|
      ensures KeyOf(batch[k], c).Some? && Ints(batch, c)[k] in ids
    {
      assert batch[k] in batch;
    }
  }

  lemma SatisfiesSnoc(row: Row, ps: seq<Predicate>, p: Predicate)
    ensures Satisfies(row, ps + [p]) <==> Satisfies(row, ps) && p(row)
  {
    if Satisfies(row, ps + [p]) {
      forall i | 0 <= i < |ps|
        ensures ps[i](row)
      {
        assert (ps + [p])[i](row);
      }
      assert (ps + [p])[|ps|](row);
    }
  }

  // A filter commutes with a query: one more predicate is a filter of the result.
  lemma SiftWhere(rows: seq<Row>, sel: Selection, p: Predicate)
    ensures Sift(rows, sel.Where(p)) == Filter(p, Sift(rows, sel))
  {
    var ps := sel.predicates;
    forall r: Row
      ensures Matching(ps + [p])(r) == (p(r) && Matching(ps)(r))
    {
      SatisfiesSnoc(r, ps, p);
    }
    FilterFilter(p, Matching(ps), Matching(ps + [p]), rows);
    FilterSort(p, sel.order, Filter(Matching(ps), rows));
  }

  // Batching: when p only accepts rows that the batch predicate b accepts,
  // filtering the one batched result gives the rows of the query for p alone.
  lemma Batching(rows: seq<Row>, sel: Selection, b: Predicate, p: Predicate)
    requires sel.Unpaged()
    requires forall r :: r in rows && p(r) ==> b(r)
    ensures Filter(p, Select(rows, sel.Where(b))) == Select(rows, sel.Where(p))
  {
    SiftWhere(rows, sel, b);
    SiftWhere(rows, sel, p);
    var s := Sift(rows, sel);
    FilterMembers(Matching(sel.predicates), rows);
    SortSorted(sel.order, Filter(Matching(sel.predicates), rows));
    forall r | r in s
      ensures p(r) == (p(r) && b(r))
    {
      assert r in multiset(s);
      assert r in Filter(Matching(sel.predicates), rows);
    }
    FilterFilter(p, b, p, s);
  }

  // A predicate that every row already satisfies changes nothing, paged or not.
  lemma WhereAgain(rows: seq<Row>, sel: Selection, p: Predicate)
    ensures Select(rows, sel.Where(p).Where(p)) == Select(rows, sel.Where(p))
  {
    SiftWhere(rows, sel, p);
    SiftWhere(rows, sel.Where(p), p);
    FilterMembers(p, Sift(rows, sel));
    FilterAll(p, Filter(p, Sift(rows, sel)));
  }
}
