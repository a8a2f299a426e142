/** Sorted lists without repetition, as `sorted(set(...))` yields them. */
module SortedLists {

  /** The order of strings by code points. */
  predicate Less(a: string, b: string) {
    b != "" && (a == "" || a[0] < b[0] || (a[0] == b[0] && Less(a[1..], b[1..])))
  }

  predicate Sorted(list: seq<string>) {
    forall i, j | 0 <= i < j < |list| :: Less(list[i], list[j])
  }

  function Inserted(list: seq<string>, value: string): seq<string> {
    if list == [] then [value]
    else if value == list[0] then list
    else if Less(value, list[0]) then [value] + list
    else [list[0]] + Inserted(list[1..], value)
  }

  lemma {:induction false} LessTotal(a: string, b: string)
    ensures !(Less(a, b) && Less(b, a)) && !Less(a, a)
    ensures a == b || Less(a, b) || Less(b, a)
    decreases |a|
  {
    if a != "" {
      if b != "" { LessTotal(a[1..], b[1..]); }
      LessIrreflexive(a);
      if b != "" && a[0] == b[0] && a[1..] == b[1..] { assert a == [a[0]] + a[1..] && b == [b[0]] + b[1..]; }
    }
  }

  lemma {:induction false} LessIrreflexive(a: string)
    ensures !Less(a, a)
    decreases |a|
  {
    if a != "" { LessIrreflexive(a[1..]); }
  }

  lemma {:induction false} LessTransitive(a: string, b: string, c: string)
    requires Less(a, b) && Less(b, c)
    ensures Less(a, c)
    decreases |a|
  {
    if a != "" && a[0] == b[0] == c[0] { LessTransitive(a[1..], b[1..], c[1..]); }
  }

  lemma {:induction false} InsertedExactly(list: seq<string>, value: string)
    requires Sorted(list)
    ensures Sorted(Inserted(list, value))
    ensures forall x :: x in Inserted(list, value) <==> x in list || x == value
    decreases |list|
  {
    hide Less;
    if list != [] {
      LessTotal(value, list[0]);
      var rest := list[1..];
      if value != list[0] {
        if Less(value, list[0]) {
          forall i | 0 <= i < |list| ensures Less(value, list[i]) {
            if i > 0 { LessTransitive(value, list[0], list[i]); }
          }
        } else {
          assert forall i | 0 <= i < |rest| :: rest[i] == list[i + 1];
          InsertedExactly(rest, value);
          var all := Inserted(rest, value);
          forall i | 0 <= i < |all| ensures Less(list[0], all[i]) {
            assert all[i] in all;
            if all[i] != value { var k :| 0 <= k < |rest| && rest[k] == all[i]; assert Less(list[0], list[k + 1]); }
          }
        }
      }
    }
  }

  /** A set has one sorted list. */
  lemma {:induction false} SortedUnique(a: seq<string>, b: seq<string>)
    requires Sorted(a) && Sorted(b) && forall x :: x in a <==> x in b
    ensures a == b
    decreases |a|
  {
    hide Less;
    assert a != [] ==> a[0] in a;
    assert b != [] ==> b[0] in b;
    if a != [] {
      LeastFirst(a, b); LeastFirst(b, a);
      LessTotal(a[0], b[0]);
      var s, t := a[1..], b[1..];
      forall x ensures x in s <==> x in t {
        InTail(a, x); InTail(b, x);
      }
      SortedUnique(s, t);
      assert a == [a[0]] + s && b == [b[0]] + t;
    }
  }

  lemma LeastFirst(a: seq<string>, b: seq<string>)
    requires Sorted(a) && a != [] && b != [] && b[0] in a
    ensures a[0] == b[0] || Less(a[0], b[0])
  {
    var i :| 0 <= i < |a| && a[i] == b[0];
  }

  lemma InTail(a: seq<string>, x: string)
    requires Sorted(a) && a != []
    ensures x in a[1..] <==> x in a && x != a[0]
  {
    LessIrreflexive(a[0]);
    if x in a[1..] { var i :| 1 <= i < |a| && a[i] == x; assert Less(a[0], a[i]); }
    assert a == [a[0]] + a[1..];
  }

  function Elements(list: seq<string>): set<string> {
    set x | x in list
  }

  /** `sorted` of a set. */
  method SortSet(values: set<string>) returns (list: seq<string>)
    ensures Sorted(list) && Elements(list) == values
  {
    list := [];
    var rest := values;
    while rest != {}
      invariant rest <= values && Sorted(list) && Elements(list) == values - rest
      decreases |rest|
    {
      var value :| value in rest;
      InsertedExactly(list, value);
      assert Elements(Inserted(list, value)) == Elements(list) + {value};
      list := Inserted(list, value);
      rest := rest - {value};
    }
  }
}
