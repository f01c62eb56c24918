// The rows of the join behind loadGroups, with one join predicate and with those that
// earlier runs have left in the query (backend/ent/account_query.go:638-671).
module GroupJoins {
  import opened Lists
  import opened Rows
  import opened EagerSpec

  // ---- one predicate -------------------------------------------------------------------

  lemma {:induction false} JoiningOnce(joinRows: seq<Row>, groups: seq<Row>, ids: seq<int>)
    ensures Pairs(Joining(joinRows, Unjoined(groups), ids)) == JoinRows(joinRows, groups, ids)
  {
    if groups != [] {
      var t, g := groups[..|groups| - 1], groups[|groups| - 1];
      JoiningOnce(joinRows, t, ids);
      assert Unjoined(groups)[..|groups| - 1] == Unjoined(t);
      var ls := LinksOf(joinRows, g, ids);
      assert Pairs(Extended(([], g), ls)) == Tagged(ls, g);
      PairsConcat(Joining(joinRows, Unjoined(t), ids), Extended(([], g), ls));
    }
  }

  lemma PairsConcat(a: seq<JoinedRow>, b: seq<JoinedRow>)
    ensures Pairs(a + b) == Pairs(a) + Pairs(b)
  {
  }

  lemma PairsPage(limit: Option<nat>, offset: Option<nat>, rows: seq<JoinedRow>)
    ensures Pairs(Page(limit, offset, rows)) == Page(limit, offset, Pairs(rows))
  {
  }

  lemma JoinedByOne(joinRows: seq<Row>, groups: seq<Row>, ids: seq<int>)
    ensures JoinedBy(joinRows, groups, [ids]) == Joining(joinRows, Unjoined(groups), ids)
  {
    hide Joining;
    assert [ids][..0] == [];
  }

  lemma JoinedByMore(joinRows: seq<Row>, groups: seq<Row>, joins: seq<seq<int>>, ids: seq<int>)
    ensures JoinedBy(joinRows, groups, joins + [ids]) == Joining(joinRows, JoinedBy(joinRows, groups, joins), ids)
  {
    hide Joining;
    assert (joins + [ids])[..|joins|] == joins;
  }

  // A query that has not run before returns the rows of the simple join.
  lemma FreshResult(st: Store, q: EntityQ, ids: seq<int>)
    requires q.joins == []
    ensures Pairs(JoinResult(st, q, ids)) == GroupJoin(st, q.sel, ids)
  {
    hide Page, Joining, JoinedBy, JoinRows, Sift, Unjoined;
    var gs := Sift(st.groups.rows, q.sel);
    assert [] + [ids] == [ids];
    JoinedByOne(st.accountGroups.rows, gs, ids);
    JoiningOnce(st.accountGroups.rows, gs, ids);
    PairsPage(q.sel.limit, q.sel.offset, JoinedBy(st.accountGroups.rows, gs, [ids]));
  }

  // ---- any number of predicates ----------------------------------------------------------

  lemma {:induction false} LinksWithin(joinRows: seq<Row>, g: Row, ids: seq<int>)
    ensures forall j :: 0 <= j < |LinksOf(joinRows, g, ids)| ==> LinksOf(joinRows, g, ids)[j] in ids
  {
    if joinRows != [] {
      LinksWithin(joinRows[..|joinRows| - 1], g, ids);
    }
  }

  // The rows of one more join are extensions of the rows before it.
  ghost predicate Extends(joinRows: seq<Row>, rows: seq<JoinedRow>, ids: seq<int>, row: JoinedRow) {
    && row.0 != [] && row.0[0] in ids && row.0[0] in LinksOf(joinRows, row.1, ids)
    && exists i :: 0 <= i < |rows| && rows[i] == (row.0[1..], row.1)
  }

  lemma {:induction false} JoiningExtends(joinRows: seq<Row>, rows: seq<JoinedRow>, ids: seq<int>)
    ensures forall row :: row in Joining(joinRows, rows, ids) ==> Extends(joinRows, rows, ids, row)
  {
    if rows != [] {
      var t, r := rows[..|rows| - 1], rows[|rows| - 1];
      JoiningExtends(joinRows, t, ids);
      LinksWithin(joinRows, r.1, ids);
      forall row | row in Joining(joinRows, rows, ids)
        ensures Extends(joinRows, rows, ids, row)
      {
        if row in Joining(joinRows, t, ids) {
          var i :| 0 <= i < |t| && t[i] == (row.0[1..], row.1);
          assert rows[i] == t[i];
        } else {
          var ls := LinksOf(joinRows, r.1, ids);
          var i :| 0 <= i < |ls| && Extended(r, ls)[i] == row;
          assert rows[|rows| - 1] == (row.0[1..], row.1);
        }
      }
    }
  }

  // Every row holds one account id for each join, the latest of them requested last.
  lemma {:induction false} JoinedShape(joinRows: seq<Row>, groups: seq<Row>, joins: seq<seq<int>>)
    ensures forall row :: row in JoinedBy(joinRows, groups, joins) ==>
              |row.0| == |joins| && (joins != [] ==> Owner(row) in joins[|joins| - 1])
  {
    if joins != [] {
      var n := |joins| - 1;
      var before := JoinedBy(joinRows, groups, joins[..n]);
      JoinedShape(joinRows, groups, joins[..n]);
      JoiningExtends(joinRows, before, joins[n]);
      forall row | row in JoinedBy(joinRows, groups, joins)
        ensures |row.0| == |joins| && Owner(row) in joins[n]
      {
        assert Extends(joinRows, before, joins[n], row);
        var i :| 0 <= i < |before| && before[i] == (row.0[1..], row.1);
        assert before[i] in before;
      }
    }
  }

  lemma ResultShape(st: Store, q: EntityQ, ids: seq<int>)
    ensures forall row :: row in JoinResult(st, q, ids) ==> |row.0| == |q.joins| + 1 && Owner(row) in ids
  {
    hide JoinedBy, Sift;
    var joins, gs := q.joins + [ids], Sift(st.groups.rows, q.sel);
    JoinedShape(st.accountGroups.rows, gs, joins);
    PageMembers(q.sel.limit, q.sel.offset, JoinedBy(st.accountGroups.rows, gs, joins));
  }

  // Joining the same accounts once more loses no row of the first join.
  lemma {:induction false} JoinedTwice(joinRows: seq<Row>, rows: seq<JoinedRow>, ids: seq<int>)
    requires forall row :: row in rows ==> LinksOf(joinRows, row.1, ids) != []
    ensures |Joining(joinRows, rows, ids)| >= |rows| && (rows == [] ==> Joining(joinRows, rows, ids) == [])
  {
    if rows != [] {
      assert rows[|rows| - 1] in rows;
      JoinedTwice(joinRows, rows[..|rows| - 1], ids);
    }
  }

  // ---- the type of the second value ---------------------------------------------------------

  lemma IdFirst(all: seq<Column>, fields: seq<Column>)
    requires LeadsWithId(all)
    ensures LeadsWithId(EntityColumns(all, fields))
  {
  }

  // What stands second: the group's id for the first run, an account id ever after.
  lemma SecondColumn(k: nat, columns: seq<Column>)
    requires LeadsWithId(columns)
    ensures |Prefixed(k + 1, columns)| > 1
    ensures Prefixed(k + 1, columns)[1] == if k == 0 then Id else AccountId
  {
  }

  lemma AssertsIntIff(k: nat, columns: seq<Column>, row: JoinedRow)
    requires LeadsWithId(columns)
    ensures AssertsInt(JoinedValues(Prefixed(k + 1, columns), row)) <==> k == 0
  {
    SecondColumn(k, columns);
  }

  // The callback panics exactly if an earlier run has left its join predicate and the
  // join returns a row.
  lemma JoinPanicsIff(st: Store, q: EntityQ, ids: seq<int>)
    requires LeadsWithId(st.groups.columns)
    ensures JoinPanics(st, q, ids) <==> q.joins != [] && JoinResult(st, q, ids) != []
  {
    hide JoinResult, JoinedValues, AssertsInt, Prefixed, EntityColumns;
    var columns := EntityColumns(st.groups.columns, q.sel.fields);
    IdFirst(st.groups.columns, q.sel.fields);
    var rows := JoinResult(st, q, ids);
    forall i | 0 <= i < |rows|
      ensures AssertsInt(JoinedValues(JoinedColumns(st, q), rows[i])) <==> |q.joins| == 0
    {
      AssertsIntIff(|q.joins|, columns, rows[i]);
    }
    if q.joins != [] && rows != [] {
      assert !AssertsInt(JoinedValues(JoinedColumns(st, q), rows[0]));
    }
  }
}
