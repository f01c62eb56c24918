// What a query returns, said of its rows alone: how often a row occurs, in which order
// the rows stand, and which of them a limit and an offset leave.
module Selections {
  import opened Lists
  import opened Rows

  // ---- limit and offset -------------------------------------------------------------

  function From(offset: Option<nat>): nat {
    if offset.Some? then offset.value else 0
  }

  // The rows from the offset on, as many as the limit allows; a limit of 0 is none.
  lemma PageExactly<T>(limit: Option<nat>, offset: Option<nat>, rows: seq<T>)
    ensures var page, rest := Page(limit, offset, rows), |rows| - From(offset);
            && |page| == (if rest <= 0 then 0
                          else if limit.Some? && limit.value > 0 && limit.value < rest then limit.value else rest)
            && forall i :: 0 <= i < |page| ==> page[i] == rows[From(offset) + i]
  {
  }

  // ---- filters ----------------------------------------------------------------------

  lemma {:induction false} FilterCounts<T>(p: T -> bool, s: seq<T>, x: T)
    ensures multiset(Filter(p, s))[x] == if p(x) then multiset(s)[x] else 0
  {
    if s != [] {
      var t, y := s[..|s| - 1], s[|s| - 1];
      FilterCounts(p, t, x);
      assert s == t + [y];
      assert multiset(s) == multiset(t) + multiset{y};
      FilterSnoc(p, t, y);
      assert multiset(Filter(p, t) + [y]) == multiset(Filter(p, t)) + multiset{y};
    }
  }

  // Without paging, a row occurs as often as in its table if every predicate of the query
  // accepts it, and else not at all.
  lemma SelectCounts(rows: seq<Row>, sel: Selection, r: Row)
    requires (sel.limit == None || sel.limit == Some(0)) && (sel.offset == None || sel.offset == Some(0))
    ensures multiset(Select(rows, sel))[r]
         == if forall k :: 0 <= k < |sel.predicates| ==> sel.predicates[k](r) then multiset(rows)[r] else 0
  {
    var f := Filter(Matching(sel.predicates), rows);
    SortSorted(sel.order, f);
    PageExactly(sel.limit, sel.offset, Sift(rows, sel));
    assert Select(rows, sel) == Sift(rows, sel);
    FilterCounts(Matching(sel.predicates), rows, r);
  }

  // ---- order ------------------------------------------------------------------------

  lemma {:induction false} RanksInTurn<T>(order: seq<T -> int>, a: T, b: T, k: nat)
    requires AtMost(order, a, b) && k < |order| && forall h :: 0 <= h < k ==> order[h](a) == order[h](b)
    ensures order[k](a) <= order[k](b)
    decreases k
  {
    if k > 0 {
      assert order[0](a) == order[0](b);
      forall h | 0 <= h < k - 1
        ensures order[1..][h](a) == order[1..][h](b)
      {
        assert order[1..][h] == order[h + 1];
      }
      RanksInTurn(order[1..], a, b, k - 1);
    }
  }

  // The ranks of the first order option never fall; among rows that tie there, neither do
  // those of the second, and so on. A page keeps this order.
  lemma SelectInOrder(rows: seq<Row>, sel: Selection, i: nat, j: nat, k: nat)
    requires i <= j < |Select(rows, sel)| && k < |sel.order|
    requires forall h :: 0 <= h < k ==> sel.order[h](Select(rows, sel)[i]) == sel.order[h](Select(rows, sel)[j])
    ensures sel.order[k](Select(rows, sel)[i]) <= sel.order[k](Select(rows, sel)[j])
  {
    hide Page, Sort, AtMost;
    SortSorted(sel.order, Filter(Matching(sel.predicates), rows));
    PageExactly(sel.limit, sel.offset, Sift(rows, sel));
    RanksInTurn(sel.order, Select(rows, sel)[i], Select(rows, sel)[j], k);
  }

  lemma {:induction false} TieAtMost<T>(order: seq<T -> int>, a: T, b: T)
    requires forall h :: 0 <= h < |order| ==> order[h](a) == order[h](b)
    ensures AtMost(order, a, b)
  {
    if |order| > 0 {
      assert order[0](a) == order[0](b);
      forall h | 0 <= h < |order| - 1
        ensures order[1..][h](a) == order[1..][h](b)
      {
        assert order[1..][h] == order[h + 1];
      }
      TieAtMost(order[1..], a, b);
    }
  }

  lemma {:induction false} TiedStay<T>(order: seq<T -> int>, s: seq<T>)
    requires forall x, y, h :: x in s && y in s && 0 <= h < |order| ==> order[h](x) == order[h](y)
    ensures Sort(order, s) == s
  {
    if |s| > 0 {
      var t, y := s[..|s| - 1], s[|s| - 1];
      assert forall x :: x in t ==> x in s;
      TiedStay(order, t);
      if t != [] {
        assert t[|t| - 1] in s && y in s;
        TieAtMost(order, t[|t| - 1], y);
      }
      assert t + [y] == s;
    }
  }

  // Rows that tie under all order options, here those that p accepts, stay as they are in
  // the table.
  lemma SiftStable(rows: seq<Row>, sel: Selection, p: Predicate)
    requires forall x, y, h :: p(x) && p(y) && 0 <= h < |sel.order| ==> sel.order[h](x) == sel.order[h](y)
    ensures Filter(p, Sift(rows, sel)) == Filter(p, Filter(Matching(sel.predicates), rows))
  {
    var f := Filter(Matching(sel.predicates), rows);
    FilterSort(p, sel.order, f);
    FilterMembers(p, f);
    TiedStay(sel.order, Filter(p, f));
  }
}
