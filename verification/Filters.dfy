/** Filtering a list, defined once for the laws that speak of "those of ..., in order". */
module Filters {

  /** The elements to keep, in order. */
  function Filter<T>(list: seq<T>, keep: T -> bool): seq<T> {
    if list == [] then []
    else if keep(list[0]) then [list[0]] + Filter(list[1..], keep)
    else Filter(list[1..], keep)
  }

  lemma {:induction false} FilterContents<T>(list: seq<T>, keep: T -> bool)
    ensures forall x :: x in Filter(list, keep) <==> x in list && keep(x)
    decreases |list|
  {
    if list != [] {
      FilterContents(list[1..], keep);
      assert list == [list[0]] + list[1..];
    }
  }

  /** Order is kept: what comes first in the list comes first in the result. */
  lemma {:induction false} FilterConcat<T>(a: seq<T>, b: seq<T>, keep: T -> bool)
    ensures Filter(a + b, keep) == Filter(a, keep) + Filter(b, keep)
    decreases |a|
  {
    if a == [] {
      assert a + b == b;
    } else {
      assert (a + b)[1..] == a[1..] + b;
      FilterConcat(a[1..], b, keep);
    }
  }

  lemma FilterSnoc<T>(list: seq<T>, x: T, keep: T -> bool)
    ensures Filter(list + [x], keep) == Filter(list, keep) + if keep(x) then [x] else []
  {
    FilterConcat(list, [x], keep);
    assert [x][1..] == [];
  }

  /** Filtering twice. */
  lemma {:induction false} FilterTwice<T>(list: seq<T>, first: T -> bool, second: T -> bool)
    ensures (forall x :: first(x) ==> second(x)) ==> Filter(Filter(list, second), first) == Filter(list, first)
    ensures (forall x :: first(x) ==> !second(x)) ==> Filter(Filter(list, second), first) == []
    decreases |list|
  {
    if list != [] {
      FilterTwice(list[1..], first, second);
      if second(list[0]) { assert Filter(list, second)[1..] == Filter(list[1..], second); }
    }
  }
}
