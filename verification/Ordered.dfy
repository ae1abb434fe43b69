/** Sets of numbers in ascending order: the order in which `std::set` and `std::map` are walked. */
module Ordered {

  predicate Ascending(s: seq<int>) {
    forall i, j :: 0 <= i < j < |s| ==> s[i] < s[j]
  }

  function Elements(s: seq<int>): set<int> { set x | x in s }

  lemma {:induction false} LeastExists(s: set<int>)
    requires s != {}
    ensures exists m :: m in s && forall x :: x in s ==> m <= x
  {
    assert exists k :: k in s by { assert (forall k :: k !in s) ==> s == {}; }
    var k :| k in s;
    var rest := s - {k};
    if rest == {} {
      assert s == {k};
    } else {
      LeastExists(rest);
      var m :| m in rest && forall x :: x in rest ==> m <= x;
      var least := if k < m then k else m;
      assert forall x :: x in s ==> x == k || x in rest;
      assert least in s && forall x :: x in s ==> least <= x;
    }
  }

  lemma SortedStep(s: set<int>, m: int, rest: seq<int>)
    requires m in s && (forall x :: x in s ==> m <= x)
    requires Ascending(rest) && Elements(rest) == s - {m} && |rest| == |s - {m}|
    ensures Ascending([m] + rest) && Elements([m] + rest) == s && |[m] + rest| == |s|
  {
    var r := [m] + rest;
    assert forall i :: 0 <= i < |rest| ==> rest[i] in Elements(rest);
    assert forall x :: x in r <==> x == m || x in Elements(rest);
  }

  /** The elements of `s`, each once, in ascending order. */
  function Sorted(s: set<int>): (r: seq<int>)
    ensures Ascending(r)
    ensures Elements(r) == s
    ensures |r| == |s|
  {
    if s == {} then []
    else
      LeastExists(s);
      var m :| m in s && forall x :: x in s ==> m <= x;
      var rest := Sorted(s - {m});
      SortedStep(s, m, rest);
      [m] + rest
  }

  lemma NonEmpty(a: seq<int>)
    ensures a == [] <==> Elements(a) == {}
  {
    if a != [] { assert a[0] in Elements(a); }
  }

  /** An ascending sequence is determined by its elements. */
  lemma {:induction false} AscendingUnique(a: seq<int>, b: seq<int>)
    requires Ascending(a) && Ascending(b)
    requires Elements(a) == Elements(b)
    ensures a == b
  {
    NonEmpty(a);
    NonEmpty(b);
    if a != [] {
      assert a[0] in Elements(b);
      assert b[0] in Elements(a);
      assert a[0] == b[0];
      var x := a[0];
      assert a == [x] + a[1..] && b == [x] + b[1..];
      assert Elements(a[1..]) == Elements(a) - {x};
      assert Elements(b[1..]) == Elements(b) - {x};
      AscendingUnique(a[1..], b[1..]);
    }
  }

  lemma SortedMembers(s: set<int>)
    ensures forall x :: x in Sorted(s) <==> x in s
  {
    assert forall x :: x in Sorted(s) <==> x in Elements(Sorted(s));
  }

  function Greatest(s: set<int>): (m: int)
    requires s != {}
    ensures m in s
    ensures forall x :: x in s ==> x <= m
  {
    var r := Sorted(s);
    assert forall x :: x in s ==> x in r;
    r[|r| - 1]
  }

  lemma {:induction false} BoundedSize(s: set<int>, n: nat)
    requires forall x :: x in s ==> 0 <= x < n
    ensures |s| <= n
  {
    if n == 0 {
      assert forall x :: x !in s;
      assert s == {};
    } else {
      BoundedSize(s - {n - 1}, n - 1);
    }
  }
}
