// Order-preserving list operations shared by the whole model. Every recursion
// peels off the last element, so a loop that walks a list from the front can
// use the functions on the prefix it has already seen.
module Lists {

  datatype Option<+T> = None | Some(value: T)

  datatype Result<+T, +E> = Ok(value: T) | Err(error: E)

  function Filter<T>(p: T -> bool, s: seq<T>): seq<T> {
    if s == [] then []
    else if p(s[|s| - 1]) then Filter(p, s[..|s| - 1]) + [s[|s| - 1]]
    else Filter(p, s[..|s| - 1])
  }

  lemma Whole<T>(s: seq<T>)
    ensures s[..|s|] == s
  {
  }

  lemma NothingFiltered<T>(p: T -> bool)
    ensures Filter(p, []) == []
  {
  }

  lemma FilterSnoc<T>(p: T -> bool, s: seq<T>, x: T)
    ensures Filter(p, s + [x]) == if p(x) then Filter(p, s) + [x] else Filter(p, s)
  {
    assert (s + [x])[..|s|] == s;
  }

  lemma FilterStep<T>(p: T -> bool, s: seq<T>, i: nat)
    requires i < |s|
    ensures Filter(p, s[..i + 1]) == if p(s[i]) then Filter(p, s[..i]) + [s[i]] else Filter(p, s[..i])
  {
    assert s[..i + 1][..i] == s[..i];
  }

  lemma {:induction false} FilterMembers<T>(p: T -> bool, s: seq<T>)
    ensures |Filter(p, s)| <= |s|
    ensures forall i :: 0 <= i < |Filter(p, s)| ==> p(Filter(p, s)[i]) && Filter(p, s)[i] in s
    ensures forall x :: x in Filter(p, s) <==> x in s && p(x)
  {
    if s != [] {
      FilterMembers(p, s[..|s| - 1]);
      assert s == s[..|s| - 1] + [s[|s| - 1]];
    }
  }

  lemma {:induction false} FilterNone<T>(p: T -> bool, s: seq<T>)
    requires forall x :: x in s ==> !p(x)
    ensures Filter(p, s) == []
  {
    if s != [] {
      FilterNone(p, s[..|s| - 1]);
    }
  }

  lemma {:induction false} FilterAll<T>(p: T -> bool, s: seq<T>)
    requires forall x :: x in s ==> p(x)
    ensures Filter(p, s) == s
  {
    if s != [] {
      FilterAll(p, s[..|s| - 1]);
    }
  }

  lemma {:induction false} FilterFilter<T>(p: T -> bool, q: T -> bool, pq: T -> bool, s: seq<T>)
    requires forall x :: x in s ==> pq(x) == (p(x) && q(x))
    ensures Filter(p, Filter(q, s)) == Filter(pq, s)
  {
    if s != [] {
      var t, x := s[..|s| - 1], s[|s| - 1];
      FilterFilter(p, q, pq, t);
      FilterSnoc(p, Filter(q, t), x);
    }
  }

  lemma {:induction false} FilterConcat<T>(p: T -> bool, s: seq<T>, t: seq<T>)
    ensures Filter(p, s + t) == Filter(p, s) + Filter(p, t)
  {
    if t == [] {
      assert s + t == s;
    } else {
      assert (s + t)[..|s + t| - 1] == s + t[..|t| - 1];
      FilterConcat(p, s, t[..|t| - 1]);
    }
  }

  // ---- stable sorting -----------------------------------------------------

  // An order option ranks an element; a list of options compares lexicographically.
  predicate AtMost<T>(order: seq<T -> int>, a: T, b: T) {
    |order| == 0
    || order[0](a) < order[0](b)
    || (order[0](a) == order[0](b) && AtMost(order[1..], a, b))
  }

  lemma {:induction false} AtMostPreorder<T>(order: seq<T -> int>, a: T, b: T, c: T)
    ensures AtMost(order, a, b) || AtMost(order, b, a)
    ensures AtMost(order, a, b) && AtMost(order, b, c) ==> AtMost(order, a, c)
  {
    if |order| > 0 {
      AtMostPreorder(order[1..], a, b, c);
    }
  }

  // Insert x after every element that does not rank above it.
  function Insert<T>(order: seq<T -> int>, s: seq<T>, x: T): seq<T> {
    if s == [] || AtMost(order, s[|s| - 1], x) then s + [x]
    else Insert(order, s[..|s| - 1], x) + [s[|s| - 1]]
  }

  function Sort<T>(order: seq<T -> int>, s: seq<T>): seq<T> {
    if s == [] then [] else Insert(order, Sort(order, s[..|s| - 1]), s[|s| - 1])
  }

  ghost predicate Sorted<T>(order: seq<T -> int>, s: seq<T>) {
    forall i, j :: 0 <= i <= j < |s| ==> AtMost(order, s[i], s[j])
  }

  lemma {:induction false} InsertMembers<T>(order: seq<T -> int>, s: seq<T>, x: T)
    ensures multiset(Insert(order, s, x)) == multiset(s) + multiset{x}
  {
    if s != [] && !AtMost(order, s[|s| - 1], x) {
      InsertMembers(order, s[..|s| - 1], x);
      assert s == s[..|s| - 1] + [s[|s| - 1]];
    }
  }

  lemma {:induction false} InsertSorted<T>(order: seq<T -> int>, s: seq<T>, x: T)
    requires Sorted(order, s)
    ensures Sorted(order, Insert(order, s, x))
  {
    AtMostPreorder(order, x, x, x);
    if s == [] || AtMost(order, s[|s| - 1], x) {
      forall i | 0 <= i < |s|
        ensures AtMost(order, s[i], x)
      {
        AtMostPreorder(order, s[i], s[|s| - 1], x);
      }
    } else {
      var t, y := s[..|s| - 1], s[|s| - 1];
      AtMostPreorder(order, x, y, x);
      InsertSorted(order, t, x);
      InsertMembers(order, t, x);
      var r := Insert(order, t, x);
      forall i | 0 <= i < |r|
        ensures AtMost(order, r[i], y)
      {
        assert r[i] in multiset(r);
        assert r[i] == x || r[i] in t;
      }
    }
  }

  lemma {:induction false} SortSorted<T>(order: seq<T -> int>, s: seq<T>)
    ensures Sorted(order, Sort(order, s))
    ensures multiset(Sort(order, s)) == multiset(s)
  {
    if s != [] {
      SortSorted(order, s[..|s| - 1]);
      InsertSorted(order, Sort(order, s[..|s| - 1]), s[|s| - 1]);
      InsertMembers(order, Sort(order, s[..|s| - 1]), s[|s| - 1]);
      assert s == s[..|s| - 1] + [s[|s| - 1]];
    }
  }

  lemma {:induction false} FilterInsert<T>(p: T -> bool, order: seq<T -> int>, s: seq<T>, x: T)
    requires Sorted(order, s)
    ensures Filter(p, Insert(order, s, x)) == if p(x) then Insert(order, Filter(p, s), x) else Filter(p, s)
  {
    if s == [] || AtMost(order, s[|s| - 1], x) {
      FilterSnoc(p, s, x);
      FilterMembers(p, s);
      FilterSnocAtMost(p, order, s, x);
    } else {
      var t, y := s[..|s| - 1], s[|s| - 1];
      FilterInsert(p, order, t, x);
      FilterSnoc(p, Insert(order, t, x), y);
      if p(x) && p(y) {
        var f := Filter(p, t);
        assert (f + [y])[..|f|] == f;
      }
      if p(x) && !p(y) {
        assert Filter(p, s) == Filter(p, t);
      }
    }
  }

  lemma FilterSnocAtMost<T>(p: T -> bool, order: seq<T -> int>, s: seq<T>, x: T)
    requires Sorted(order, s)
    requires s == [] || AtMost(order, s[|s| - 1], x)
    ensures Insert(order, Filter(p, s), x) == Filter(p, s) + [x]
  {
    var f := Filter(p, s);
    FilterMembers(p, s);
    if f != [] {
      var l := f[|f| - 1];
      var i :| 0 <= i < |s| && s[i] == l;
      AtMostPreorder(order, l, s[|s| - 1], x);
    }
  }

  lemma SortSnoc<T>(order: seq<T -> int>, s: seq<T>, x: T)
    ensures Sort(order, s + [x]) == Insert(order, Sort(order, s), x)
  {
    assert (s + [x])[..|s|] == s;
  }

  // A stable sort and a filter may be applied in either order.
  lemma {:induction false} FilterSort<T>(p: T -> bool, order: seq<T -> int>, s: seq<T>)
    ensures Filter(p, Sort(order, s)) == Sort(order, Filter(p, s))
  {
    if s != [] {
      var t, x := s[..|s| - 1], s[|s| - 1];
      FilterSort(p, order, t);
      SortSorted(order, t);
      FilterInsert(p, order, Sort(order, t), x);
      if p(x) {
        SortSnoc(order, Filter(p, t), x);
      }
    }
  }

  // ---- positions ----------------------------------------------------------

  // The positions at which p holds of a key, in ascending order.
  function Positions<K>(p: K -> bool, keys: seq<K>): seq<nat> {
    if keys == [] then []
    else Positions(p, keys[..|keys| - 1]) + if p(keys[|keys| - 1]) then [|keys| - 1] else []
  }

  lemma {:induction false} PositionsMembers<K>(p: K -> bool, keys: seq<K>)
    ensures forall j :: j in Positions(p, keys) <==> 0 <= j < |keys| && p(keys[j])
    ensures forall i, j :: 0 <= i < j < |Positions(p, keys)| ==> Positions(p, keys)[i] < Positions(p, keys)[j]
  {
    if keys != [] {
      var t := keys[..|keys| - 1];
      PositionsMembers(p, t);
      forall i | 0 <= i < |Positions(p, t)|
        ensures Positions(p, t)[i] < |t|
      {
        assert Positions(p, t)[i] in Positions(p, t);
      }
    }
  }

  // The elements of xs at the given positions.
  function At<T>(xs: seq<T>, ps: seq<nat>): (r: seq<T>)
    requires forall j :: j in ps ==> j < |xs|
    ensures |r| == |ps|
    ensures forall i :: 0 <= i < |ps| ==> ps[i] in ps && r[i] == xs[ps[i]]
  {
    seq(|ps|, i requires 0 <= i < |ps| => assert ps[i] in ps; xs[ps[i]])
  }

  lemma {:induction false} PositionsFilter<T, K>(p: K -> bool, xs: seq<T>, keys: seq<K>, q: T -> bool)
    requires |xs| == |keys|
    requires forall i :: 0 <= i < |xs| ==> q(xs[i]) == p(keys[i])
    ensures forall j :: j in Positions(p, keys) ==> j < |xs|
    ensures At(xs, Positions(p, keys)) == Filter(q, xs)
  {
    PositionsMembers(p, keys);
    if xs != [] {
      var n := |xs| - 1;
      PositionsFilter(p, xs[..n], keys[..n], q);
      PositionsMembers(p, keys[..n]);
      assert At(xs, Positions(p, keys[..n])) == At(xs[..n], Positions(p, keys[..n]));
    }
  }

  // The elements of xs whose key satisfies p.
  function Picked<T, K>(p: K -> bool, keys: seq<K>, xs: seq<T>): seq<T>
    requires |keys| == |xs|
  {
    PositionsMembers(p, keys);
    At(xs, Positions(p, keys))
  }

  lemma PickedStep<T, K>(p: K -> bool, keys: seq<K>, xs: seq<T>, j: nat)
    requires j < |keys| == |xs|
    ensures Picked(p, keys[..j + 1], xs[..j + 1])
         == if p(keys[j]) then Picked(p, keys[..j], xs[..j]) + [xs[j]] else Picked(p, keys[..j], xs[..j])
  {
    assert keys[..j + 1][..j] == keys[..j];
    PositionsMembers(p, keys[..j]);
    PositionsMembers(p, keys[..j + 1]);
  }

  // The last position holding a key, or -1.
  function LastIndex<K(==)>(keys: seq<K>, key: K): (i: int)
    ensures -1 <= i < |keys|
    ensures i >= 0 ==> keys[i] == key
    ensures forall j :: i < j < |keys| ==> keys[j] != key
  {
    if keys == [] then -1
    else if keys[|keys| - 1] == key then |keys| - 1
    else LastIndex(keys[..|keys| - 1], key)
  }

  // ---- duplicate-free key lists -------------------------------------------

  // The keys that are present, each once, in order of first appearance.
  function Distinct<K(==)>(keys: seq<Option<K>>): seq<K> {
    if keys == [] then []
    else
      var ds := Distinct(keys[..|keys| - 1]);
      match keys[|keys| - 1]
      case None => ds
      case Some(k) => if k in ds then ds else ds + [k]
  }

  lemma {:induction false} DistinctMembers<K>(keys: seq<Option<K>>)
    ensures forall k :: k in Distinct(keys) <==> Some(k) in keys
    ensures forall i, j :: 0 <= i < j < |Distinct(keys)| ==> Distinct(keys)[i] != Distinct(keys)[j]
  {
    if keys != [] {
      DistinctMembers(keys[..|keys| - 1]);
      assert keys == keys[..|keys| - 1] + [keys[|keys| - 1]];
    }
  }

  function AppendOnce<K(==)>(s: seq<K>, x: K): seq<K> {
    if x in s then s else s + [x]
  }
}
