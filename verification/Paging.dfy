/** Listings that arrive in pages. */
module Paging {
  function Flat<T>(pages: seq<seq<T>>): seq<T> {
    if pages == [] then [] else Flat(pages[..|pages| - 1]) + pages[|pages| - 1]
  }

  predicate Distinct<T(==)>(items: seq<T>) {
    forall i, j :: 0 <= i < j < |items| ==> items[i] != items[j]
  }

  function AsSet<T>(items: seq<T>): set<T> { set x | x in items }

  lemma {:induction false} SetOfDistinct<T>(items: seq<T>)
    requires Distinct(items)
    ensures |AsSet(items)| == |items|
  {
    if items == [] {
      assert AsSet(items) == {};
    } else {
      SetOfDistinct(items[1..]);
      assert AsSet(items) == {items[0]} + AsSet(items[1..]);
    }
  }

  lemma {:induction false} SubsetIsSmaller<T>(a: set<T>, b: set<T>)
    requires a <= b
    ensures |a| <= |b|
  {
    if a != {} {
      var x :| x in a;
      SubsetIsSmaller(a - {x}, b - {x});
    }
  }

  /** Pages are put together in order, whole. */
  lemma {:induction false} FlatInOrder<T>(a: seq<seq<T>>, page: seq<T>, b: seq<seq<T>>)
    ensures Flat<T>([]) == []
    ensures Flat(a + [page] + b) == Flat(a) + page + Flat(b)
  {
    if b == [] {
      var s := a + [page] + b;
      assert s[..|s| - 1] == a && s[|s| - 1] == page;
    } else {
      var front, last := b[..|b| - 1], b[|b| - 1];
      var s := a + [page] + b;
      assert s[..|s| - 1] == a + [page] + front && s[|s| - 1] == last;
      FlatInOrder(a, page, front);
    }
  }
}
