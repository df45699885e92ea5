/** SELECT ... ORDER BY: the one list a strict total order makes of a set of rows. */
module Ordering {

  ghost predicate StrictTotal<T(!new)>(items: set<T>, less: (T, T) -> bool) {
    && (forall x :: x in items ==> !less(x, x))
    && (forall x, y :: x in items && y in items && x != y ==> less(x, y) || less(y, x))
    && (forall x, y, z :: x in items && y in items && z in items && less(x, y) && less(y, z) ==> less(x, z))
  }

  function SetOf<T>(s: seq<T>): set<T> {
    set x | x in s
  }

  ghost predicate Ascending<T>(s: seq<T>, less: (T, T) -> bool) {
    forall i, j :: 0 <= i < j < |s| ==> less(s[i], s[j])
  }

  ghost predicate IsLeast<T(!new)>(x: T, items: set<T>, less: (T, T) -> bool) {
    x in items && forall y :: y in items && y != x ==> less(x, y)
  }

  lemma {:induction false} LeastExists<T(!new)>(items: set<T>, less: (T, T) -> bool) returns (least: T)
    requires items != {} && StrictTotal(items, less)
    ensures IsLeast(least, items, less)
    decreases |items|
  {
    var x :| x in items;
    var others := items - {x};
    assert forall y :: y in items ==> y == x || y in others;
    if others == {} {
      least := x;
    } else {
      var rest := LeastExists(others, less);
      least := if less(x, rest) then x else rest;
    }
  }

  lemma SetOfCons<T>(x: T, s: seq<T>)
    ensures SetOf([x] + s) == {x} + SetOf(s)
  {
  }

  lemma EmptyIff<T>(s: seq<T>)
    ensures s == [] <==> SetOf(s) == {}
  {
    assert s != [] ==> s[0] in SetOf(s);
  }

  lemma HasLeast<T(!new)>(items: set<T>, less: (T, T) -> bool)
    requires items != {} && StrictTotal(items, less)
    ensures exists x :: IsLeast(x, items, less)
  {
    var x := LeastExists(items, less);
  }

  lemma OrderedCons<T(!new)>(x: T, rest: seq<T>, items: set<T>, less: (T, T) -> bool)
    requires IsLeast(x, items, less) && SetOf(rest) == items - {x} && Ascending(rest, less)
    ensures SetOf([x] + rest) == items && Ascending([x] + rest, less)
  {
    SetOfCons(x, rest);
    assert forall k :: 0 <= k < |rest| ==> rest[k] in SetOf(rest);
  }

  ghost function Ordered<T(!new)>(items: set<T>, less: (T, T) -> bool): (s: seq<T>)
    requires StrictTotal(items, less)
    ensures SetOf(s) == items && Ascending(s, less)
    decreases |items|
  {
    if items == {} then []
    else
      HasLeast(items, less);
      var x :| IsLeast(x, items, less);
      var rest := Ordered(items - {x}, less);
      OrderedCons(x, rest, items, less);
      [x] + rest
  }

  /** No other list has the same rows in that order. */
  lemma {:induction false} OrderedIs<T(!new)>(s: seq<T>, t: seq<T>, less: (T, T) -> bool)
    requires StrictTotal(SetOf(s), less) && SetOf(t) == SetOf(s) && Ascending(s, less) && Ascending(t, less)
    ensures s == t
    decreases |s|
  {
    EmptyIff(s);
    EmptyIff(t);
    if s != [] {
      TailOf(s, less);
      TailOf(t, less);
      OrderedIs(s[1..], t[1..], less);
    }
  }

  lemma TailOf<T(!new)>(s: seq<T>, less: (T, T) -> bool)
    requires s != [] && StrictTotal(SetOf(s), less) && Ascending(s, less)
    ensures SetOf(s[1..]) == SetOf(s) - {s[0]} && StrictTotal(SetOf(s[1..]), less) && Ascending(s[1..], less)
  {
    forall k | 0 < k < |s| ensures s[k] != s[0] {
      assert s[0] in SetOf(s) && less(s[0], s[k]);
    }
    assert s == [s[0]] + s[1..];
  }
}
